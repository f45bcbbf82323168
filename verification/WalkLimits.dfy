/** Where the walk stops being exact: rows lost going down, rows repeated going up, walks that
    never end, and sort fields the cursor does not follow.  The cause is always the same: a cursor
    keeps only the millisecond of a microsecond column. */
module WalkLimits {
  import opened Wrappers
  import opened Calendar
  import opened Requests
  import opened Cursors
  import opened RowOrder
  import opened Listings
  import opened Walks
  import opened StaticWalks

  lemma SubsetSize<T>(small: set<T>, big: set<T>)
    requires small <= big
    ensures |small| <= |big|
    ensures small != big ==> |small| < |big|
  {
    assert big == small + (big - small);
    assert |big| == |small| + |big - small|;
    if small != big {
      assert big - small != {};
    }
  }

  // ---------------------------------------------------------------- every sort field

  /** Going down, or over whole milliseconds, each page moves the position strictly onwards,
      whatever the rows are sorted by. */
  lemma PageAdvances(table: Table, l: Listing, seek: Option<SeekKey>)
    requires l.limit >= 1 && Fetch(table, l, seek).next.Some?
    requires l.sort.direction.Desc? || forall row :: row in Matching(table, l) ==> MillisExact(row.createdAt)
    ensures seek.Some? ==> Ahead(l.sort.direction, seek.value, Fetch(table, l, seek).next.value)
    ensures |Eligible(table, l, Fetch(table, l, seek).next)| < |Eligible(table, l, seek)|
    ensures 1 < |Eligible(table, l, seek)|
  {
    FetchMeaning(table, l, seek);
    var last := Remaining(table, l, seek)[l.limit - 1];
    assert last in Remaining(table, l, seek);
    assert last in Eligible(table, l, seek) && last in Matching(table, l);
    var next := Some(CursorOf(last));
    assert last !in Eligible(table, l, next);
    SubsetSize(Eligible(table, l, next), Eligible(table, l, seek));
  }

  /** The next positions of a walk, in order. */
  function Positions(pages: seq<Batch>): (ks: seq<SeekKey>) {
    if pages == [] then []
    else (if pages[0].next.Some? then [pages[0].next.value] else []) + Positions(pages[1..])
  }

  ghost predicate Advancing(direction: Direction, seek: Option<SeekKey>, ks: seq<SeekKey>) {
    && (forall i :: 0 <= i < |ks| && seek.Some? ==> Ahead(direction, seek.value, ks[i]))
    && (forall i, j :: 0 <= i < j < |ks| ==> Ahead(direction, ks[i], ks[j]))
  }

  /** Whatever the sort field, a walk over a table with `n` rows to list has at most max(1, n)
      pages and only matching rows, and each of its positions is strictly beyond the one before. */
  lemma {:induction false} AnySortWalk(table: Table, l: Listing, seek: Option<SeekKey>, pages: seq<Batch>)
    requires l.limit >= 1
    requires l.sort.direction.Desc? || forall row :: row in Matching(table, l) ==> MillisExact(row.createdAt)
    requires StaticWalk(table, l, seek, pages)
    ensures var n := |Eligible(table, l, seek)|;
            |pages| <= if n == 0 then 1 else n
    ensures forall row :: row in AllRows(pages) ==> row in Matching(table, l)
    ensures Advancing(l.sort.direction, seek, Positions(pages))
    decreases |pages|
  {
    StaticFirst(table, l, seek, pages);
    forall row | row in pages[0].data
      ensures row in Matching(table, l)
    {
      assert row in Remaining(table, l, seek);
    }
    if |pages| > 1 {
      PageAdvances(table, l, seek);
      AnySortWalk(table, l, pages[0].next, pages[1..]);
      AdvancingCons(l.sort.direction, seek, pages[0].next.value, Positions(pages[1..]));
    } else {
      if pages[0].next.Some? {
        PageAdvances(table, l, seek);
        AdvancingCons(l.sort.direction, seek, pages[0].next.value, []);
      }
      assert Positions(pages[1..]) == [];
    }
  }

  lemma AdvancingCons(direction: Direction, seek: Option<SeekKey>, k: SeekKey, ks: seq<SeekKey>)
    requires seek.Some? ==> Ahead(direction, seek.value, k)
    requires Advancing(direction, Some(k), ks)
    ensures Advancing(direction, seek, [k] + ks)
  {
  }

  /** Such a walk can always be completed. */
  lemma {:induction false} AnySortWalkEnds(table: Table, l: Listing, seek: Option<SeekKey>) returns (pages: seq<Batch>)
    requires l.limit >= 1
    requires l.sort.direction.Desc? || forall row :: row in Matching(table, l) ==> MillisExact(row.createdAt)
    ensures StaticWalk(table, l, seek, pages) && Completed(pages)
    decreases |Eligible(table, l, seek)|
  {
    if Fetch(table, l, seek).next.None? {
      pages := LastPage(table, l, seek);
    } else {
      PageAdvances(table, l, seek);
      var rest := AnySortWalkEnds(table, l, Fetch(table, l, seek).next);
      pages := OnePageMore(table, l, seek, rest);
    }
  }

  // ---------------------------------------------------------------- going down: lost rows

  /** The last rows of all pages but the last one. */
  function Boundaries(pages: seq<Batch>): seq<RequestRow> {
    if |pages| <= 1 then []
    else (if pages[0].data == [] then [] else [Boundary(pages[0])]) + Boundaries(pages[1..])
  }

  /** `x` comes after `last`, but not beyond the cursor made from it. */
  predicate Shadows(last: RequestRow, x: RequestRow) {
    Ahead(Desc, KeyOf(last), KeyOf(x)) && !Ahead(Desc, CursorOf(last), KeyOf(x))
  }

  predicate Shadowed(boundaries: seq<RequestRow>, x: RequestRow) {
    exists b :: b in boundaries && Shadows(b, x)
  }

  /** A row is only ever shadowed within one millisecond. */
  lemma ShadowMeaning(last: RequestRow, x: RequestRow)
    ensures Shadows(last, x) <==>
            && Ahead(Desc, KeyOf(last), KeyOf(x))
            && ToMillis(x.createdAt) == ToMillis(last.createdAt)
            && (MillisExact(x.createdAt) ==> x.id >= last.id)
  {
  }

  lemma {:induction false} BoundariesBeyond(table: Table, l: Listing, seek: Option<SeekKey>, pages: seq<Batch>)
    requires ByCreation(l) && l.sort.direction.Desc?
    requires StaticWalk(table, l, seek, pages)
    ensures forall b :: b in Boundaries(pages) ==> b in AllRows(pages) && Beyond(seek, Desc, b)
    decreases |pages|
  {
    StaticFirst(table, l, seek, pages);
    if |pages| > 1 {
      BoundariesBeyond(table, l, pages[0].next, pages[1..]);
      RestFollows(table, l, seek, Boundaries(pages[1..]));
      var last := Boundary(pages[0]);
      assert last in pages[0].data && last in Remaining(table, l, seek);
      assert Boundaries(pages) == [last] + Boundaries(pages[1..]);
    }
  }

  /** A completed descending walk returns a row that is to be listed unless, and only unless, the
      row at the end of some page shadows it. */
  lemma {:induction false} DescMissesIff(table: Table, l: Listing, seek: Option<SeekKey>, pages: seq<Batch>,
      x: RequestRow)
    requires ByCreation(l) && l.sort.direction.Desc?
    requires StaticWalk(table, l, seek, pages) && Completed(pages)
    requires x in Eligible(table, l, seek)
    ensures x in AllRows(pages) <==> !Shadowed(Boundaries(pages), x)
    decreases |pages|
  {
    StaticFirst(table, l, seek, pages);
    PageSplits(table, l, seek, x);
    PageInOrder(table, l, seek);
    AllRowsSplit(pages, x);
    if |pages| > 1 {
      var last, rest := Boundary(pages[0]), pages[1..];
      BoundariesSplit(pages, x);
      WalkRowsBeyond(table, l, pages[0].next, rest);
      BoundariesBeyond(table, l, pages[0].next, rest);
      RestFollows(table, l, seek, AllRows(rest));
      var next := pages[0].next;
      assert next == Some(CursorOf(last));
      if x in pages[0].data {
        NoneShadows(last, x, Boundaries(rest));
      } else if Ahead(Desc, CursorOf(last), KeyOf(x)) {
        assert x in Eligible(table, l, next);
        DescMissesIff(table, l, next, rest, x);
        assert !Shadows(last, x);
      } else {
        assert Shadows(last, x);
        assert !Beyond(next, Desc, x);
      }
    }
  }

  /** Boundaries after `last` do not shadow rows up to `last`. */
  lemma NoneShadows(last: RequestRow, x: RequestRow, boundaries: seq<RequestRow>)
    requires x == last || Ahead(Desc, KeyOf(x), KeyOf(last))
    requires forall b :: b in boundaries ==> Ahead(Desc, KeyOf(last), KeyOf(b))
    ensures !Shadows(last, x)
    ensures !Shadowed(boundaries, x)
  {
  }

  lemma BoundariesSplit(pages: seq<Batch>, x: RequestRow)
    requires |pages| > 1 && pages[0].data != []
    ensures Shadowed(Boundaries(pages), x) <==> Shadows(Boundary(pages[0]), x) || Shadowed(Boundaries(pages[1..]), x)
  {
    assert Boundaries(pages) == [Boundary(pages[0])] + Boundaries(pages[1..]);
    if Shadows(Boundary(pages[0]), x) {
      assert Boundary(pages[0]) in Boundaries(pages);
    }
  }

  /** All rows of a descending walk are beyond its start, in strict order. */
  lemma WalkRowsBeyond(table: Table, l: Listing, seek: Option<SeekKey>, pages: seq<Batch>)
    requires ByCreation(l) && l.sort.direction.Desc?
    requires StaticWalk(table, l, seek, pages)
    ensures forall row :: row in AllRows(pages) ==> Beyond(seek, Desc, row)
    ensures StrictlyOrdered(Desc, AllRows(pages))
  {
    StaticIsWalk(table, l, seek, pages);
    WalkInOrder(Same(table, |pages|), l, seek, pages);
  }

  // ---------------------------------------------------------------- going up: repeated rows

  lemma AtOrAfter(seek: SeekKey, row: RequestRow)
    requires Ahead(Asc, seek, KeyOf(row))
    ensures ToMillis(row.createdAt) >= seek.at / 1000
  {
  }

  lemma NotLater(x: RequestRow, last: RequestRow)
    requires x == last || Ahead(Asc, KeyOf(x), KeyOf(last))
    ensures ToMillis(x.createdAt) <= ToMillis(last.createdAt)
  {
  }

  lemma CursorMilli(row: RequestRow)
    ensures CursorOf(row).at / 1000 == ToMillis(row.createdAt)
  {
  }

  /** No row of an ascending walk is of an earlier millisecond than its start. */
  lemma {:induction false} AscRowsFrom(table: Table, l: Listing, seek: Option<SeekKey>, pages: seq<Batch>,
      x: RequestRow)
    requires ByCreation(l) && l.sort.direction.Asc?
    requires StaticWalk(table, l, seek, pages) && seek.Some?
    requires x in AllRows(pages)
    ensures ToMillis(x.createdAt) >= seek.value.at / 1000
    decreases |pages|
  {
    StaticFirst(table, l, seek, pages);
    AllRowsSplit(pages, x);
    if x in pages[0].data {
      assert x in Remaining(table, l, seek);
      AtOrAfter(seek.value, x);
    } else {
      var last := Boundary(pages[0]);
      assert last in Remaining(table, l, seek);
      AtOrAfter(seek.value, last);
      CursorMilli(last);
      AscRowsFrom(table, l, pages[0].next, pages[1..], x);
    }
  }

  lemma AscRepeatsFirst(table: Table, l: Listing, seek: Option<SeekKey>, pages: seq<Batch>, x: RequestRow)
    requires ByCreation(l) && l.sort.direction.Asc?
    requires StaticWalk(table, l, seek, pages) && |pages| > 1
    requires x in pages[0].data && x in AllRows(pages[1..])
    ensures pages[0].data != [] && ToMillis(Boundary(pages[0]).createdAt) == ToMillis(x.createdAt)
  {
    StaticFirst(table, l, seek, pages);
    PageInOrder(table, l, seek);
    AscRowsFrom(table, l, pages[0].next, pages[1..], x);
    CursorMilli(Boundary(pages[0]));
    NotLater(x, Boundary(pages[0]));
  }

  lemma {:induction false} OnSomePage(pages: seq<Batch>, k: nat, x: RequestRow)
    requires k < |pages| && x in pages[k].data
    ensures x in AllRows(pages)
  {
    if k > 0 {
      assert pages[1..][k - 1] == pages[k];
      OnSomePage(pages[1..], k - 1, x);
    }
  }

  /** The row is on some page and again on a later one. */
  predicate Repeated(pages: seq<Batch>, x: RequestRow) {
    |pages| > 1 && ((x in pages[0].data && x in AllRows(pages[1..])) || Repeated(pages[1..], x))
  }

  lemma {:induction false} RepeatedPages(pages: seq<Batch>, x: RequestRow, i: nat, j: nat)
    requires i < j < |pages| && x in pages[i].data && x in pages[j].data
    ensures Repeated(pages, x)
  {
    var tail := pages[1..];
    assert tail[j - 1] == pages[j];
    if i == 0 {
      OnSomePage(tail, j - 1, x);
    } else {
      assert tail[i - 1] == pages[i];
      RepeatedPages(tail, x, i - 1, j - 1);
    }
  }

  lemma {:induction false} RepeatedNearBoundary(table: Table, l: Listing, seek: Option<SeekKey>,
      pages: seq<Batch>, x: RequestRow)
    requires ByCreation(l) && l.sort.direction.Asc?
    requires StaticWalk(table, l, seek, pages)
    requires Repeated(pages, x)
    ensures exists b :: b in Boundaries(pages) && ToMillis(b.createdAt) == ToMillis(x.createdAt)
    decreases |pages|
  {
    if x in pages[0].data && x in AllRows(pages[1..]) {
      AscRepeatsFirst(table, l, seek, pages, x);
      BoundariesCons(pages, Boundary(pages[0]));
    } else {
      RepeatedNearBoundary(table, l, pages[0].next, pages[1..], x);
      var b :| b in Boundaries(pages[1..]) && ToMillis(b.createdAt) == ToMillis(x.createdAt);
      BoundariesCons(pages, b);
    }
  }

  /** An ascending walk returns a row on two pages only within the millisecond of a row that ends a
      page; no page has a row twice. */
  lemma AscRepeats(table: Table, l: Listing, seek: Option<SeekKey>, pages: seq<Batch>, x: RequestRow, i: nat, j: nat)
    requires ByCreation(l) && l.sort.direction.Asc?
    requires StaticWalk(table, l, seek, pages)
    requires i < j < |pages| && x in pages[i].data && x in pages[j].data
    ensures exists b :: b in Boundaries(pages) && ToMillis(b.createdAt) == ToMillis(x.createdAt)
  {
    RepeatedPages(pages, x, i, j);
    RepeatedNearBoundary(table, l, seek, pages, x);
  }

  lemma BoundariesCons(pages: seq<Batch>, b: RequestRow)
    requires |pages| > 1
    requires b in Boundaries(pages[1..]) || (pages[0].data != [] && b == Boundary(pages[0]))
    ensures b in Boundaries(pages)
  {
  }

  // ---------------------------------------------------------------- going up: walks that do not end

  function InMilli(rows: set<RequestRow>, m: int): set<RequestRow> {
    set row <- rows | ToMillis(row.createdAt) == m
  }

  /** The rows from the start of a millisecond on. */
  function FromMilli(rows: set<RequestRow>, m: int): set<RequestRow> {
    set row <- rows | ToMillis(row.createdAt) >= m
  }

  function InsideMilli(rows: set<RequestRow>, m: int): set<RequestRow> {
    set row <- rows | ToMillis(row.createdAt) == m && !MillisExact(row.createdAt)
  }

  function AfterMilliStart(rows: set<RequestRow>, m: int): set<RequestRow> {
    set row <- rows | row.createdAt > m * 1000
  }

  /** The millisecond fits on a page with room to spare, or it and all that follows fit on one. */
  predicate Passable(rows: set<RequestRow>, limit: nat, m: int) {
    |InMilli(rows, m)| < limit || |FromMilli(rows, m)| <= limit
  }

  function Elements(s: seq<RequestRow>): set<RequestRow> {
    set x | x in s
  }

  lemma {:induction false} ElementsSize(s: seq<RequestRow>)
    ensures |Elements(s)| <= |s|
    ensures (forall i, j :: 0 <= i < j < |s| ==> s[i] != s[j]) ==> |Elements(s)| == |s|
  {
    if s != [] {
      ElementsSize(s[1..]);
      assert Elements(s) == {s[0]} + Elements(s[1..]);
    }
  }

  /** A set too big to be covered by `s` has an element outside it. */
  lemma Uncovered(big: set<RequestRow>, small: set<RequestRow>) returns (x: RequestRow)
    requires |small| < |big|
    ensures x in big && x !in small
  {
    if big <= small {
      SubsetSize(big, small);
    }
    x :| x in big && x !in small;
  }

  /** A full page from within a passable millisecond has a row of a later one. */
  lemma AscPageLeaves(table: Table, l: Listing, seek: Option<SeekKey>) returns (k: nat)
    requires ByCreation(l) && l.sort.direction.Asc? && seek.Some?
    requires |Remaining(table, l, seek)| > l.limit
    requires Passable(Matching(table, l), l.limit, seek.value.at / 1000)
    ensures k < l.limit && ToMillis(Remaining(table, l, seek)[k].createdAt) != seek.value.at / 1000
  {
    hide Matching;
    var rows, m, matching := Remaining(table, l, seek), seek.value.at / 1000, Matching(table, l);
    RemainingOrdered(table, l, seek);
    EligibleFrom(table, l, seek);
    SubsetSize(Eligible(table, l, seek), FromMilli(matching, m));
    SubsetSize(InMilli(Elements(rows), m), InMilli(matching, m));
    FullPageLeaves(rows, l.limit, m);
    k :| 0 <= k < l.limit && ToMillis(rows[k].createdAt) != m;
  }

  /** From within a passable millisecond, the next page ends in a later one. */
  lemma AscPassesOn(table: Table, l: Listing, seek: Option<SeekKey>)
    requires ByCreation(l) && l.sort.direction.Asc?
    requires seek.Some? && Fetch(table, l, seek).next.Some?
    requires Passable(Matching(table, l), l.limit, seek.value.at / 1000)
    ensures Fetch(table, l, seek).next.value.at / 1000 > seek.value.at / 1000
  {
    hide Matching, Passable, Fetch;
    FetchMeaning(table, l, seek);
    var rows := Remaining(table, l, seek);
    RemainingOrdered(table, l, seek);
    var k := AscPageLeaves(table, l, seek);
    assert rows[k] in rows;
    var last := rows[l.limit - 1];
    assert k == l.limit - 1 || Ahead(Asc, KeyOf(rows[k]), KeyOf(last));
    AtOrAfter(seek.value, rows[k]);
    NotLater(rows[k], last);
    CursorMilli(last);
  }

  lemma EligibleFrom(table: Table, l: Listing, seek: Option<SeekKey>)
    requires l.sort.direction.Asc? && seek.Some?
    ensures Eligible(table, l, seek) <= FromMilli(Matching(table, l), seek.value.at / 1000)
  {
    forall x | x in Eligible(table, l, seek)
      ensures ToMillis(x.createdAt) >= seek.value.at / 1000
    {
      AtOrAfter(seek.value, x);
    }
  }

  /** A page of `limit` different rows does not fit into a millisecond that holds fewer. */
  lemma FullPageLeaves(rows: seq<RequestRow>, limit: nat, m: int)
    requires |rows| > limit && StrictlyOrdered(Asc, rows)
    requires |InMilli(Elements(rows), m)| < limit
    ensures exists k :: 0 <= k < limit && ToMillis(rows[k].createdAt) != m
  {
    var data := rows[..limit];
    forall i, j | 0 <= i < j < limit
      ensures data[i] != data[j]
    {
      assert Ahead(Asc, KeyOf(rows[i]), KeyOf(rows[j]));
    }
    ElementsSize(data);
    var y := Uncovered(Elements(data), InMilli(Elements(rows), m));
    var k :| 0 <= k < limit && data[k] == y;
    assert y in rows;
  }

  /** An ascending walk ends if every millisecond is passable, in particular if every millisecond
      holds fewer than `limit` matching rows. */
  lemma {:induction false} AscWalkEnds(table: Table, l: Listing, seek: Option<SeekKey>) returns (pages: seq<Batch>)
    requires ByCreation(l) && l.sort.direction.Asc?
    requires forall m :: Passable(Matching(table, l), l.limit, m)
    ensures StaticWalk(table, l, seek, pages) && Completed(pages)
    decreases seek.None?, if seek.Some? then |FromMilli(Matching(table, l), seek.value.at / 1000 + 1)| else 0
  {
    if Fetch(table, l, seek).next.None? {
      pages := LastPage(table, l, seek);
    } else {
      FetchMeaning(table, l, seek);
      var next := Fetch(table, l, seek).next;
      if seek.Some? {
        AscPassesOn(table, l, seek);
        var last := Remaining(table, l, seek)[l.limit - 1];
        assert last in Remaining(table, l, seek) && last in Matching(table, l);
        var was := FromMilli(Matching(table, l), seek.value.at / 1000 + 1);
        assert last in was && last !in FromMilli(Matching(table, l), next.value.at / 1000 + 1);
        SubsetSize(FromMilli(Matching(table, l), next.value.at / 1000 + 1), was);
      }
      var rest := AscWalkEnds(table, l, next);
      pages := OnePageMore(table, l, seek, rest);
    }
  }

  /** A millisecond with a page or more of rows inside it, and more than a page from there on, is never left. */
  predicate Blocked(rows: set<RequestRow>, limit: nat, m: int) {
    |InsideMilli(rows, m)| >= limit && |AfterMilliStart(rows, m)| > limit
  }

  /** A row inside the millisecond that is not among the first `limit - 1` still to be listed. */
  lemma InsideBeyondFront(table: Table, l: Listing, seek: Option<SeekKey>, m: int) returns (k: nat)
    requires ByCreation(l) && l.sort.direction.Asc?
    requires |Remaining(table, l, seek)| >= l.limit && |InsideMilli(Matching(table, l), m)| >= l.limit
    requires seek.Some? ==> seek.value.at <= m * 1000
    ensures l.limit - 1 <= k < |Remaining(table, l, seek)|
    ensures Remaining(table, l, seek)[k] in InsideMilli(Matching(table, l), m)
  {
    hide Matching;
    var rows := Remaining(table, l, seek);
    var front := rows[..l.limit - 1];
    ElementsSize(front);
    var y := Uncovered(InsideMilli(Matching(table, l), m), Elements(front));
    assert y in Eligible(table, l, seek) && y in rows;
    forall j | 0 <= j < l.limit - 1
      ensures rows[j] != y
    {
      assert front[j] in front;
    }
    k :| 0 <= k < |rows| && rows[k] == y;
  }

  lemma AscStaysBefore(table: Table, l: Listing, seek: Option<SeekKey>, m: int)
    requires ByCreation(l) && l.sort.direction.Asc?
    requires Blocked(Matching(table, l), l.limit, m)
    requires seek.Some? ==> seek.value.at <= m * 1000
    ensures var next := Fetch(table, l, seek).next;
            next.Some? && next.value.at <= m * 1000
  {
    hide Matching, Fetch;
    FetchMeaning(table, l, seek);
    var rows := Remaining(table, l, seek);
    RemainingOrdered(table, l, seek);
    SubsetSize(AfterMilliStart(Matching(table, l), m), Eligible(table, l, seek));
    var k := InsideBeyondFront(table, l, seek, m);
    assert k == l.limit - 1 || Ahead(Asc, KeyOf(rows[l.limit - 1]), KeyOf(rows[k]));
    NotLater(rows[l.limit - 1], rows[k]);
  }

  /** An ascending walk that starts before a blocked millisecond never ends, however long it goes on. */
  lemma {:induction false} AscWalkNeverEnds(table: Table, l: Listing, seek: Option<SeekKey>, pages: seq<Batch>, m: int)
    requires ByCreation(l) && l.sort.direction.Asc?
    requires Blocked(Matching(table, l), l.limit, m)
    requires seek.Some? ==> seek.value.at <= m * 1000
    requires StaticWalk(table, l, seek, pages)
    ensures !Completed(pages)
    decreases |pages|
  {
    AscStaysBefore(table, l, seek, m);
    if |pages| > 1 {
      AscWalkNeverEnds(table, l, pages[0].next, pages[1..], m);
    }
  }

  /** The two conditions are each other's negation in every millisecond that can be passed or has no row
      on the whole millisecond; so, unless a row falls exactly on a millisecond that is too full, an
      ascending walk from the start ends if and only if every millisecond is passable. */
  lemma AscEndsIff(table: Table, l: Listing)
    requires ByCreation(l) && l.sort.direction.Asc?
    requires forall row :: row in Matching(table, l) && MillisExact(row.createdAt) ==>
               Passable(Matching(table, l), l.limit, ToMillis(row.createdAt))
    ensures (exists pages :: StaticWalk(table, l, None, pages) && Completed(pages))
       <==> forall m :: Passable(Matching(table, l), l.limit, m)
  {
    var rows := Matching(table, l);
    if forall m :: Passable(rows, l.limit, m) {
      var pages := AscWalkEnds(table, l, None);
    } else {
      var m :| !Passable(rows, l.limit, m);
      assert InMilli(rows, m) == InsideMilli(rows, m);
      assert FromMilli(rows, m) == AfterMilliStart(rows, m);
      forall pages | StaticWalk(table, l, None, pages)
        ensures !Completed(pages)
      {
        AscWalkNeverEnds(table, l, None, pages, m);
      }
    }
  }

  // ---------------------------------------------------------------- every walk: it ends soon or never

  lemma {:induction false} SuffixWalk(table: Table, l: Listing, seek: Option<SeekKey>, pages: seq<Batch>, j: nat)
    requires StaticWalk(table, l, seek, pages) && Completed(pages) && 0 < j < |pages|
    ensures pages[j - 1].next.Some? && StaticWalk(table, l, pages[j - 1].next, pages[j..]) && Completed(pages[j..])
    decreases j
  {
    hide Fetch;
    if j > 1 {
      SuffixWalk(table, l, pages[0].next, pages[1..], j - 1);
      assert pages[1..][j - 1..] == pages[j..] && pages[1..][j - 2] == pages[j - 1];
    }
  }

  /** A completed walk is never twice at the same position. */
  lemma PositionsDiffer(table: Table, l: Listing, seek: Option<SeekKey>, pages: seq<Batch>, i: nat, j: nat)
    requires StaticWalk(table, l, seek, pages) && Completed(pages) && i < j < |pages| - 1
    ensures pages[i].next != pages[j].next
  {
    hide StaticWalk, Completed;
    SuffixWalk(table, l, seek, pages, i + 1);
    SuffixWalk(table, l, seek, pages, j + 1);
    if pages[i].next == pages[j].next {
      WalkUnique(table, l, pages[i].next, pages[i + 1..], pages[j + 1..]);
    }
  }

  lemma FirstPositionIsOfRow(table: Table, l: Listing, seek: Option<SeekKey>, pages: seq<Batch>)
    requires l.limit >= 1 && StaticWalk(table, l, seek, pages) && pages[0].next.Some?
    ensures exists row :: row in Matching(table, l) && pages[0].next == Some(CursorOf(row))
  {
    hide Fetch, Matching;
    StaticFirst(table, l, seek, pages);
    var last := Boundary(pages[0]);
    assert last in pages[0].data && last in Remaining(table, l, seek);
    assert last in Eligible(table, l, seek) && last in Matching(table, l);
  }

  lemma {:induction false} PositionIsOfRow(table: Table, l: Listing, seek: Option<SeekKey>, pages: seq<Batch>, i: nat)
    requires l.limit >= 1 && StaticWalk(table, l, seek, pages) && i < |pages| && pages[i].next.Some?
    ensures exists row :: row in Matching(table, l) && pages[i].next == Some(CursorOf(row))
    decreases i
  {
    hide Fetch, Matching;
    if i == 0 {
      FirstPositionIsOfRow(table, l, seek, pages);
    } else {
      PositionIsOfRow(table, l, pages[0].next, pages[1..], i - 1);
    }
  }

  function CursorsOf(rows: set<RequestRow>): set<Option<SeekKey>> {
    set row <- rows :: Some(CursorOf(row))
  }

  lemma {:induction false} FewCursors(rows: set<RequestRow>)
    ensures |CursorsOf(rows)| <= |rows|
    decreases |rows|
  {
    if rows != {} {
      var row :| row in rows;
      FewCursors(rows - {row});
      assert CursorsOf(rows) == CursorsOf(rows - {row}) + {Some(CursorOf(row))};
    }
  }

  lemma {:induction false} DistinctCount<T>(s: seq<T>, all: set<T>)
    requires forall i, j :: 0 <= i < j < |s| ==> s[i] != s[j]
    requires forall i :: 0 <= i < |s| ==> s[i] in all
    ensures |s| <= |all|
  {
    if s != [] {
      var n := |s| - 1;
      DistinctCount(s[..n], all - {s[n]});
    }
  }

  lemma CursorIn(rows: set<RequestRow>, row: RequestRow)
    requires row in rows
    ensures Some(CursorOf(row)) in CursorsOf(rows)
  {
  }

  lemma NotEmpty(table: Table, l: Listing, seek: Option<SeekKey>, pages: seq<Batch>)
    requires StaticWalk(table, l, seek, pages)
    ensures pages != []
  {
  }

  function Nexts(pages: seq<Batch>): (ns: seq<Option<SeekKey>>)
    ensures |ns| == |pages|
  {
    seq(|pages|, i requires 0 <= i < |pages| => pages[i].next)
  }

  /** Every completed walk, whatever is sorted by and however times fall, has at most one page more than
      there are rows to list; so a walk that has not ended by then never ends. */
  lemma EndsSoonOrNever(table: Table, l: Listing, seek: Option<SeekKey>, pages: seq<Batch>)
    requires l.limit >= 1 && StaticWalk(table, l, seek, pages) && Completed(pages)
    ensures |pages| <= |Matching(table, l)| + 1
  {
    hide StaticWalk, Completed, Matching, CursorsOf;
    NotEmpty(table, l, seek, pages);
    var n := |pages| - 1;
    var ns := Nexts(pages)[..n];
    forall i, j | 0 <= i < j < n
      ensures ns[i] != ns[j]
    {
      PositionsDiffer(table, l, seek, pages, i, j);
    }
    forall i | 0 <= i < n
      ensures ns[i] in CursorsOf(Matching(table, l))
    {
      SuffixWalk(table, l, seek, pages, i + 1);
      PositionIsOfRow(table, l, seek, pages, i);
      var row :| row in Matching(table, l) && pages[i].next == Some(CursorOf(row));
      CursorIn(Matching(table, l), row);
    }
    DistinctCount(ns, CursorsOf(Matching(table, l)));
    FewCursors(Matching(table, l));
  }
}
