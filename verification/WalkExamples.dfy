/** Small tables on which the walks can be followed by hand: one that shows rows lost and rows
    repeated, and one that changes between two fetches without harm. */
module WalkExamples {
  import opened Wrappers
  import opened Calendar
  import opened Uuids
  import opened Requests
  import opened Cursors
  import opened RowOrder
  import opened Listings
  import opened Walks
  import opened StaticWalks
  import opened WalkLimits

  // ---------------------------------------------------------------- losing and repeating rows

  function Sample(id: Uuid, at: Micros): RequestRow {
    RequestRow(id, 0, "", "", Email, Open, None, None, None, None, at, at, None)
  }

  /** Two rows of one millisecond, listed one a page. */
  function TwoRows(): Table {
    map[1 := Sample(1, 2300), 2 := Sample(2, 2500)]
  }

  function OneAPage(direction: Direction): Listing {
    Listing(0, None, None, None, Sort(ByCreatedAt, direction), 1)
  }

  lemma TwoRowsMatch(direction: Direction)
    ensures Matching(TwoRows(), OneAPage(direction)) == {Sample(1, 2300), Sample(2, 2500)}
  {
    assert TwoRows()[1] == Sample(1, 2300) && TwoRows()[2] == Sample(2, 2500);
  }

  lemma TwoRowsFirst()
    ensures Remaining(TwoRows(), OneAPage(Desc), None) == [Sample(2, 2500), Sample(1, 2300)]
  {
    TwoRowsMatch(Desc);
    OnlyListing(TwoRows(), OneAPage(Desc), None, [Sample(2, 2500), Sample(1, 2300)]);
  }

  lemma TwoRowsNext()
    ensures Remaining(TwoRows(), OneAPage(Desc), Some(CursorOf(Sample(2, 2500)))) == []
  {
    TwoRowsMatch(Desc);
    hide Matching;
    OnlyListing(TwoRows(), OneAPage(Desc), Some(CursorOf(Sample(2, 2500))), []);
  }

  /** Going down, the second row is lost: the walk completes without it. */
  lemma DescWalkLosesRow() returns (pages: seq<Batch>)
    ensures StaticWalk(TwoRows(), OneAPage(Desc), None, pages) && Completed(pages)
    ensures Sample(1, 2300) in Matching(TwoRows(), OneAPage(Desc)) && Sample(1, 2300) !in AllRows(pages)
  {
    hide Matching, Remaining, TwoRows, Eligible, Fetch, StaticWalk;
    var next := Some(CursorOf(Sample(2, 2500)));
    TwoRowsMatch(Desc);
    TwoRowsFirst();
    TwoRowsNext();
    FetchMeaning(TwoRows(), OneAPage(Desc), None);
    FetchMeaning(TwoRows(), OneAPage(Desc), next);
    var rest := LastPage(TwoRows(), OneAPage(Desc), next);
    pages := OnePageMore(TwoRows(), OneAPage(Desc), None, rest);
    assert Fetch(TwoRows(), OneAPage(Desc), None).data == [Sample(2, 2500)];
    assert AllRows(pages) == [Sample(2, 2500)] + [];
  }

  /** Going up, the walk never completes. */
  lemma AscWalkRunsOn(pages: seq<Batch>)
    requires StaticWalk(TwoRows(), OneAPage(Asc), None, pages)
    ensures !Completed(pages)
  {
    TwoRowsMatch(Asc);
    var rows := Matching(TwoRows(), OneAPage(Asc));
    assert InsideMilli(rows, 2) == rows && AfterMilliStart(rows, 2) == rows;
    AscWalkNeverEnds(TwoRows(), OneAPage(Asc), None, pages, 2);
  }

  lemma TwoRowsUp(seek: Option<SeekKey>)
    requires seek.Some? ==> seek.value.at <= 2000
    ensures Remaining(TwoRows(), OneAPage(Asc), seek) == [Sample(1, 2300), Sample(2, 2500)]
  {
    TwoRowsMatch(Asc);
    hide Matching;
    OnlyListing(TwoRows(), OneAPage(Asc), seek, [Sample(1, 2300), Sample(2, 2500)]);
  }

  lemma FetchUp(seek: Option<SeekKey>)
    requires seek.Some? ==> seek.value.at <= 2000
    ensures Fetch(TwoRows(), OneAPage(Asc), seek) == Batch([Sample(1, 2300)], Some(CursorOf(Sample(1, 2300))))
  {
    hide Matching, Remaining, TwoRows, Eligible, Fetch;
    TwoRowsUp(seek);
    FetchMeaning(TwoRows(), OneAPage(Asc), seek);
  }

  /** ... because every page of it, however long it goes on, is the first row again. */
  lemma {:induction false} AscWalkRepeatsRow(seek: Option<SeekKey>, pages: seq<Batch>, k: nat)
    requires seek.Some? ==> seek.value.at <= 2000
    requires StaticWalk(TwoRows(), OneAPage(Asc), seek, pages) && k < |pages|
    ensures pages[k].data == [Sample(1, 2300)]
    decreases k
  {
    hide TwoRows, Fetch;
    FetchUp(seek);
    if k > 0 {
      AscWalkRepeatsRow(pages[0].next, pages[1..], k - 1);
    }
  }

  /** And it goes on for as long as one likes. */
  lemma {:induction false} AscWalkGoesOn(seek: Option<SeekKey>, n: nat) returns (pages: seq<Batch>)
    requires seek.Some? ==> seek.value.at <= 2000
    requires n >= 1
    ensures StaticWalk(TwoRows(), OneAPage(Asc), seek, pages) && |pages| == n
    decreases n
  {
    hide TwoRows, Fetch;
    FetchUp(seek);
    var page := Fetch(TwoRows(), OneAPage(Asc), seek);
    if n == 1 {
      pages := [page];
    } else {
      var rest := AscWalkGoesOn(page.next, n - 1);
      pages := [page] + rest;
      assert pages[1..] == rest;
    }
  }

  // ---------------------------------------------------------------- a change between two fetches

  /** Two rows on whole milliseconds, and the same table after the first has been deleted. */
  function WholeRows(): Table {
    map[1 := Sample(1, 2000), 2 := Sample(2, 3000)]
  }

  function OneDeleted(): Table {
    map[1 := Sample(1, 2000).(deletedAt := Some(5000)), 2 := Sample(2, 3000)]
  }

  lemma WholeRowsFirst()
    ensures Matching(WholeRows(), OneAPage(Asc)) == {Sample(1, 2000), Sample(2, 3000)}
    ensures Remaining(WholeRows(), OneAPage(Asc), None) == [Sample(1, 2000), Sample(2, 3000)]
  {
    assert WholeRows()[1] == Sample(1, 2000) && WholeRows()[2] == Sample(2, 3000);
    OnlyListing(WholeRows(), OneAPage(Asc), None, [Sample(1, 2000), Sample(2, 3000)]);
  }

  lemma OneDeletedNext()
    ensures Matching(OneDeleted(), OneAPage(Asc)) == {Sample(2, 3000)}
    ensures Remaining(OneDeleted(), OneAPage(Asc), Some(CursorOf(Sample(1, 2000)))) == [Sample(2, 3000)]
  {
    assert OneDeleted()[2] == Sample(2, 3000);
    OnlyListing(OneDeleted(), OneAPage(Asc), Some(CursorOf(Sample(1, 2000))), [Sample(2, 3000)]);
  }

  lemma SamplesExact()
    ensures AllExact([WholeRows(), OneDeleted()], OneAPage(Asc))
  {
    hide Matching, WholeRows, OneDeleted;
    WholeRowsFirst();
    OneDeletedNext();
    forall t: Table, row | t in [WholeRows(), OneDeleted()] && row in Matching(t, OneAPage(Asc))
      ensures MillisExact(row.createdAt)
    {
      EitherTable(t);
    }
  }

  lemma EitherTable(t: Table)
    requires t in [WholeRows(), OneDeleted()]
    ensures t == WholeRows() || t == OneDeleted()
  {
    hide WholeRows, OneDeleted;
  }

  lemma SamplesFixed()
    ensures CreationFixed([WholeRows(), OneDeleted()])
  {
    forall s: Table, t: Table, id: Uuid |
      s in [WholeRows(), OneDeleted()] && t in [WholeRows(), OneDeleted()] && id in s && id in t
      ensures s[id].createdAt == t[id].createdAt
    {
      EitherTable(s);
      EitherTable(t);
    }
  }

  /** A completed walk of the kind `StableWalk` is about: its first row is deleted before the second
      page is fetched, and both rows are returned once. */
  lemma StableWalkCase() returns (pages: seq<Batch>)
    ensures var tables := [WholeRows(), OneDeleted()];
            && IsWalk(tables, OneAPage(Asc), None, pages) && ByCreation(OneAPage(Asc))
            && CreationFixed(tables) && AllExact(tables, OneAPage(Asc)) && Completed(pages)
            && AllRows(pages) == [Sample(1, 2000), Sample(2, 3000)]
  {
    hide Matching, Remaining, Eligible, Fetch, WholeRows, OneDeleted, AllExact, CreationFixed;
    var next := Some(CursorOf(Sample(1, 2000)));
    SamplesExact();
    SamplesFixed();
    WholeRowsFirst();
    OneDeletedNext();
    FetchMeaning(WholeRows(), OneAPage(Asc), None);
    FetchMeaning(OneDeleted(), OneAPage(Asc), next);
    var first, second := Fetch(WholeRows(), OneAPage(Asc), None), Fetch(OneDeleted(), OneAPage(Asc), next);
    pages := [first, second];
    assert pages[1..] == [second] && [WholeRows(), OneDeleted()][1..] == [OneDeleted()];
    assert IsWalk([OneDeleted()], OneAPage(Asc), next, [second]);
    assert AllRows([second]) == second.data + [];
  }
}
