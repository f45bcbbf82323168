/** Walks over a table that does not change: what the pages add up to, exactly when that is the
    plain sorted list, and when the walk ends at all. */
module StaticWalks {
  import opened Wrappers
  import opened Calendar
  import opened Requests
  import opened Cursors
  import opened RowOrder
  import opened Listings
  import opened Walks

  ghost predicate StaticWalk(table: Table, l: Listing, seek: Option<SeekKey>, pages: seq<Batch>)
    decreases |pages|
  {
    && pages != []
    && pages[0] == Fetch(table, l, seek)
    && (|pages| > 1 ==> pages[0].next.Some? && StaticWalk(table, l, pages[0].next, pages[1..]))
  }

  function Same(table: Table, n: nat): (tables: seq<Table>)
    ensures |tables| == n
    ensures forall i :: 0 <= i < n ==> tables[i] == table
  {
    if n == 0 then [] else [table] + Same(table, n - 1)
  }

  /** A static walk is a walk whose every fetch reads the same table. */
  lemma {:induction false} StaticIsWalk(table: Table, l: Listing, seek: Option<SeekKey>, pages: seq<Batch>)
    requires pages != []
    ensures StaticWalk(table, l, seek, pages) <==> IsWalk(Same(table, |pages|), l, seek, pages)
    decreases |pages|
  {
    assert Same(table, |pages|)[1..] == Same(table, |pages| - 1);
    if |pages| > 1 {
      StaticIsWalk(table, l, pages[0].next, pages[1..]);
    }
  }

  /** The table and the query determine the completed walk. */
  lemma {:induction false} WalkUnique(table: Table, l: Listing, seek: Option<SeekKey>, pages: seq<Batch>,
      pages': seq<Batch>)
    requires StaticWalk(table, l, seek, pages) && Completed(pages)
    requires StaticWalk(table, l, seek, pages') && Completed(pages')
    ensures pages == pages'
    decreases |pages|
  {
    hide Fetch;
    if |pages| > 1 {
      WalkUnique(table, l, pages[0].next, pages[1..], pages'[1..]);
    }
    assert pages == [pages[0]] + pages[1..] && pages' == [pages'[0]] + pages'[1..];
  }

  lemma StaticFirst(table: Table, l: Listing, seek: Option<SeekKey>, pages: seq<Batch>)
    requires StaticWalk(table, l, seek, pages) && l.limit >= 1
    ensures var rows := Remaining(table, l, seek);
            && pages[0].data == Take(rows, l.limit)
            && pages[0].next == if |rows| > l.limit then Some(CursorOf(rows[l.limit - 1])) else None
    ensures pages[0].next.Some? ==> pages[0].data != [] && pages[0].next == Some(CursorOf(Boundary(pages[0])))
    ensures AllRows(pages) == pages[0].data + AllRows(pages[1..])
  {
    FetchMeaning(table, l, seek);
  }

  lemma LastPage(table: Table, l: Listing, seek: Option<SeekKey>) returns (pages: seq<Batch>)
    requires l.limit >= 1 && Fetch(table, l, seek).next.None?
    ensures StaticWalk(table, l, seek, pages) && Completed(pages)
    ensures pages == [Fetch(table, l, seek)]
    ensures Datas(pages) == [Remaining(table, l, seek)]
    ensures AllRows(pages) == Remaining(table, l, seek)
  {
    FetchMeaning(table, l, seek);
    var page := Fetch(table, l, seek);
    pages := [page];
    assert page.data == Remaining(table, l, seek);
    assert AllRows(pages) == page.data + AllRows(pages[1..]);
    assert Datas(pages) == [page.data];
  }

  lemma OnePageMore(table: Table, l: Listing, seek: Option<SeekKey>, rest: seq<Batch>) returns (pages: seq<Batch>)
    requires Fetch(table, l, seek).next.Some?
    requires StaticWalk(table, l, Fetch(table, l, seek).next, rest) && Completed(rest)
    ensures StaticWalk(table, l, seek, pages) && Completed(pages)
    ensures pages == [Fetch(table, l, seek)] + rest
    ensures Datas(pages) == [Fetch(table, l, seek).data] + Datas(rest)
    ensures AllRows(pages) == Fetch(table, l, seek).data + AllRows(rest)
  {
    pages := [Fetch(table, l, seek)] + rest;
    assert pages[1..] == rest;
    DatasCons(Fetch(table, l, seek), rest);
  }

  // ---------------------------------------------------------------- the exact walk

  /** Consecutive runs of `limit` rows, the last one shorter or, for no rows at all, empty. */
  function Chunks(rows: seq<RequestRow>, limit: nat): (c: seq<seq<RequestRow>>)
    requires limit >= 1
    ensures c != []
  {
    if |rows| <= limit then [rows] else [rows[..limit]] + Chunks(rows[limit..], limit)
  }

  /** `k` pages of `limit` rows are just enough for `n` rows: k is max(1, ceil(n / limit)). */
  predicate JustEnough(k: nat, limit: nat, n: nat) {
    && k >= 1
    && n <= k * limit
    && (k > 1 ==> (k - 1) * limit < n)
  }

  lemma {:induction false} ChunkCount(rows: seq<RequestRow>, limit: nat)
    requires limit >= 1
    ensures JustEnough(|Chunks(rows, limit)|, limit, |rows|)
  {
    if |rows| > limit {
      ChunkCount(rows[limit..], limit);
      var k := |Chunks(rows[limit..], limit)|;
      assert (k + 1) * limit == k * limit + limit;
      assert k * limit == (k - 1) * limit + limit;
    }
  }

  function Datas(pages: seq<Batch>): (d: seq<seq<RequestRow>>)
    ensures |d| == |pages|
  {
    seq(|pages|, i requires 0 <= i < |pages| => pages[i].data)
  }

  lemma DatasCons(page: Batch, rest: seq<Batch>)
    ensures Datas([page] + rest) == [page.data] + Datas(rest)
  {
  }

  /** A page may end at `last` with `next` to follow: `next` is beyond the cursor of `last`, and
      `last` itself is not. */
  predicate CleanCut(direction: Direction, last: RequestRow, next: RequestRow) {
    && Ahead(direction, CursorOf(last), KeyOf(next))
    && !Ahead(direction, CursorOf(last), KeyOf(last))
  }

  /** Every place where the list is cut into pages is clean. */
  predicate CleanCuts(direction: Direction, rows: seq<RequestRow>, limit: nat)
    requires limit >= 1
  {
    |rows| > limit ==> CleanCut(direction, rows[limit - 1], rows[limit]) && CleanCuts(direction, rows[limit..], limit)
  }

  /** Going down, a cut is clean when the next row is older than the last one's millisecond, or has
      exactly that millisecond and a smaller id; going up, when the last row is a whole millisecond. */
  lemma CleanCutMeaning(direction: Direction, last: RequestRow, next: RequestRow)
    requires Ahead(direction, KeyOf(last), KeyOf(next))
    ensures CleanCut(direction, last, next) <==>
      match direction
      case Asc => MillisExact(last.createdAt)
      case Desc => (
        var floor := ToMillis(last.createdAt) * 1000;
        next.createdAt < floor || (next.createdAt == floor && next.id < last.id))
  {
  }

  lemma {:induction false} ExactTimesCutClean(direction: Direction, rows: seq<RequestRow>, limit: nat)
    requires limit >= 1
    requires StrictlyOrdered(direction, rows)
    requires forall row :: row in rows ==> MillisExact(row.createdAt)
    ensures CleanCuts(direction, rows, limit)
    decreases |rows|
  {
    if |rows| > limit {
      assert rows[limit - 1] in rows;
      assert Ahead(direction, KeyOf(rows[limit - 1]), KeyOf(rows[limit]));
      ExactTimesCutClean(direction, rows[limit..], limit);
    }
  }

  lemma RemainingOrdered(table: Table, l: Listing, seek: Option<SeekKey>)
    requires ByCreation(l)
    ensures StrictlyOrdered(l.sort.direction, Remaining(table, l, seek))
  {
    var rows := Remaining(table, l, seek);
    forall i, j | 0 <= i < j < |rows|
      ensures Ahead(l.sort.direction, KeyOf(rows[i]), KeyOf(rows[j]))
    {
      assert Before(l.sort, rows[i], rows[j]);
    }
  }

  /** Among all listed rows, those beyond the cursor of a clean cut are those after the cut. */
  lemma CleanCutSplits(direction: Direction, matching: set<RequestRow>, seek: Option<SeekKey>,
      rows: seq<RequestRow>, limit: nat, x: RequestRow)
    requires 1 <= limit < |rows|
    requires StrictlyOrdered(direction, rows)
    requires forall y :: y in rows <==> y in matching && Beyond(seek, direction, y)
    requires CleanCut(direction, rows[limit - 1], rows[limit])
    ensures x in rows[limit..] <==> x in matching && Ahead(direction, CursorOf(rows[limit - 1]), KeyOf(x))
  {
    var last := rows[limit - 1];
    if x in rows[limit..] {
      var k :| limit <= k < |rows| && rows[k] == x;
      assert x in rows;
      assert k == limit || Ahead(direction, KeyOf(rows[limit]), KeyOf(x));
    }
    if x in matching && Ahead(direction, CursorOf(last), KeyOf(x)) {
      assert last in rows;
      assert x in rows;
      var k :| 0 <= k < |rows| && rows[k] == x;
      assert k >= limit - 1 || Ahead(direction, KeyOf(x), KeyOf(last));
      assert rows[limit..][k - limit] == x;
    }
  }

  lemma ExactTimesClean(table: Table, l: Listing, seek: Option<SeekKey>)
    requires ByCreation(l)
    requires forall row :: row in Matching(table, l) ==> MillisExact(row.createdAt)
    ensures CleanCuts(l.sort.direction, Remaining(table, l, seek), l.limit)
  {
    RemainingOrdered(table, l, seek);
    forall row | row in Remaining(table, l, seek)
      ensures MillisExact(row.createdAt)
    {
      assert row in Eligible(table, l, seek);
    }
    ExactTimesCutClean(l.sort.direction, Remaining(table, l, seek), l.limit);
  }

  lemma OnlyListing(table: Table, l: Listing, seek: Option<SeekKey>, rows: seq<RequestRow>)
    requires InOrder(l.sort, rows)
    requires forall x :: x in rows <==> x in Eligible(table, l, seek)
    ensures rows == Remaining(table, l, seek)
  {
    SortedUnique(l.sort, rows, Remaining(table, l, seek));
  }

  /** After a clean cut, exactly the rows not yet listed remain. */
  lemma AfterCleanCut(table: Table, l: Listing, seek: Option<SeekKey>)
    requires ByCreation(l)
    requires |Remaining(table, l, seek)| > l.limit
    requires var rows := Remaining(table, l, seek);
             CleanCut(l.sort.direction, rows[l.limit - 1], rows[l.limit])
    ensures Remaining(table, l, Some(CursorOf(Remaining(table, l, seek)[l.limit - 1]))) == Remaining(table, l, seek)[l.limit..]
  {
    var rows := Remaining(table, l, seek);
    var next := Some(CursorOf(rows[l.limit - 1]));
    RemainingOrdered(table, l, seek);
    forall x
      ensures x in rows[l.limit..] <==> x in Eligible(table, l, next)
    {
      CleanCutSplits(l.sort.direction, Matching(table, l), seek, rows, l.limit, x);
    }
    OnlyListing(table, l, next, rows[l.limit..]);
  }

  lemma ChunksStep(rows: seq<RequestRow>, limit: nat)
    requires 1 <= limit < |rows|
    ensures Chunks(rows, limit) == [Take(rows, limit)] + Chunks(rows[limit..], limit)
    ensures rows == Take(rows, limit) + rows[limit..]
  {
  }

  /** With clean cuts the walk ends, and its pages are the chunks of the sorted list. */
  lemma {:induction false} CleanWalk(table: Table, l: Listing, seek: Option<SeekKey>, rows: seq<RequestRow>)
    returns (pages: seq<Batch>)
    requires ByCreation(l)
    requires rows == Remaining(table, l, seek)
    requires CleanCuts(l.sort.direction, rows, l.limit)
    ensures StaticWalk(table, l, seek, pages) && Completed(pages)
    ensures Datas(pages) == Chunks(rows, l.limit)
    ensures AllRows(pages) == rows
    decreases |rows|
  {
    FetchMeaning(table, l, seek);
    if |rows| <= l.limit {
      pages := LastPage(table, l, seek);
    } else {
      AfterCleanCut(table, l, seek);
      ChunksStep(rows, l.limit);
      var rest := CleanWalk(table, l, Fetch(table, l, seek).next, rows[l.limit..]);
      pages := OnePageMore(table, l, seek, rest);
    }
  }

  /** If a row is beyond its own cursor, the next page does not start with the row after it. */
  lemma ExactImpliesClean(table: Table, l: Listing, seek: Option<SeekKey>)
    requires ByCreation(l)
    requires |Remaining(table, l, seek)| > l.limit
    requires var rows := Remaining(table, l, seek);
             var rows' := Remaining(table, l, Some(CursorOf(rows[l.limit - 1])));
             rows' != [] && rows'[0] == rows[l.limit]
    ensures var rows := Remaining(table, l, seek);
            CleanCut(l.sort.direction, rows[l.limit - 1], rows[l.limit])
  {
    var rows := Remaining(table, l, seek);
    var last := rows[l.limit - 1];
    var rows' := Remaining(table, l, Some(CursorOf(last)));
    RemainingOrdered(table, l, seek);
    RemainingOrdered(table, l, Some(CursorOf(last)));
    assert rows'[0] in rows';
    assert last in rows;
    assert Ahead(l.sort.direction, KeyOf(last), KeyOf(rows[l.limit]));
    forall k | 0 <= k < |rows'|
      ensures rows'[k] != last
    {
      assert k == 0 || Ahead(l.sort.direction, KeyOf(rows'[0]), KeyOf(rows'[k]));
    }
    assert last !in Eligible(table, l, Some(CursorOf(last))) && last in Matching(table, l);
    assert rows[l.limit] in Eligible(table, l, Some(CursorOf(last)));
  }

  lemma {:induction false} ExactWalkCutsClean(table: Table, l: Listing, seek: Option<SeekKey>, pages: seq<Batch>)
    requires ByCreation(l)
    requires StaticWalk(table, l, seek, pages) && Completed(pages)
    requires AllRows(pages) == Remaining(table, l, seek)
    ensures CleanCuts(l.sort.direction, Remaining(table, l, seek), l.limit)
    decreases |pages|
  {
    StaticFirst(table, l, seek, pages);
    var rows := Remaining(table, l, seek);
    if |rows| > l.limit {
      assert AllRows(pages[1..]) == rows[l.limit..];
      StaticFirst(table, l, pages[0].next, pages[1..]);
      assert AllRows(pages[1..])[0] == rows[l.limit];
      var rows' := Remaining(table, l, pages[0].next);
      ExactImpliesClean(table, l, seek);
      AfterCleanCut(table, l, seek);
      ExactWalkCutsClean(table, l, pages[0].next, pages[1..]);
    }
  }

  /** On any table, whatever the precision of its times: some completed walk returns exactly the
      sorted list if and only if the list is cut cleanly. */
  lemma WalkExactIff(table: Table, l: Listing, seek: Option<SeekKey>)
    requires ByCreation(l)
    ensures (exists pages :: StaticWalk(table, l, seek, pages) && Completed(pages) && AllRows(pages) == Remaining(table, l, seek))
       <==> CleanCuts(l.sort.direction, Remaining(table, l, seek), l.limit)
  {
    if CleanCuts(l.sort.direction, Remaining(table, l, seek), l.limit) {
      var pages := CleanWalk(table, l, seek, Remaining(table, l, seek));
    }
    forall pages | StaticWalk(table, l, seek, pages) && Completed(pages) && AllRows(pages) == Remaining(table, l, seek)
      ensures CleanCuts(l.sort.direction, Remaining(table, l, seek), l.limit)
    {
      ExactWalkCutsClean(table, l, seek, pages);
    }
  }

  /** For whole-millisecond times the walk refines the plain list: its pages are the chunks of the
      sorted list, max(1, ceil(n / limit)) of them, and only the last has no next position. */
  lemma ExactTimesWalk(table: Table, l: Listing, seek: Option<SeekKey>) returns (pages: seq<Batch>)
    requires ByCreation(l)
    requires forall row :: row in Matching(table, l) ==> MillisExact(row.createdAt)
    ensures StaticWalk(table, l, seek, pages) && Completed(pages)
    ensures Datas(pages) == Chunks(Remaining(table, l, seek), l.limit)
    ensures AllRows(pages) == Remaining(table, l, seek)
    ensures var n := |Eligible(table, l, seek)|;
            |pages| >= 1 && n <= |pages| * l.limit && (|pages| > 1 ==> (|pages| - 1) * l.limit < n)
  {
    ExactTimesClean(table, l, seek);
    pages := CleanWalk(table, l, seek, Remaining(table, l, seek));
    ChunkCount(Remaining(table, l, seek), l.limit);
  }
}
