/** The orders a listing can be sorted in, and sorting a set of rows by one of them. */
module RowOrder {
  import opened Wrappers
  import opened Requests
  import opened Cursors

  datatype SortField = ByCreatedAt | ByUpdatedAt | ByStatus | ByUrgency

  datatype Direction = Asc | Desc

  datatype Sort = Sort(field: SortField, direction: Direction)

  function StatusRank(s: Status): int {
    match s case Open => 0 case InProgress => 1 case Resolved => 2 case Closed => 3
  }

  /** Enum columns compare by declaration order; PostgreSQL treats null as larger than any value. */
  function UrgencyRank(u: Option<Urgency>): int {
    match u
    case Some(Low) => 0
    case Some(Medium) => 1
    case Some(High) => 2
    case Some(Critical) => 3
    case None => 4
  }

  function Rank(row: RequestRow, field: SortField): int {
    match field
    case ByCreatedAt => row.createdAt
    case ByUpdatedAt => row.updatedAt
    case ByStatus => StatusRank(row.status)
    case ByUrgency => UrgencyRank(row.urgency)
  }

  /** `b` comes strictly after `a` in the given direction of the (at, id) order. */
  predicate Ahead(direction: Direction, a: SeekKey, b: SeekKey) {
    match direction
    case Asc => a.at < b.at || (a.at == b.at && a.id < b.id)
    case Desc => b.at < a.at || (a.at == b.at && b.id < a.id)
  }

  /** `ORDER BY field direction, id direction` */
  predicate Before(sort: Sort, a: RequestRow, b: RequestRow) {
    Ahead(sort.direction, SeekKey(Rank(a, sort.field), a.id), SeekKey(Rank(b, sort.field), b.id))
  }

  function KeyOf(row: RequestRow): SeekKey {
    SeekKey(row.createdAt, row.id)
  }

  predicate DistinctIds(rows: set<RequestRow>) {
    forall a, b :: a in rows && b in rows && a.id == b.id ==> a == b
  }

  predicate IsFirst(sort: Sort, first: RequestRow, rows: set<RequestRow>) {
    first in rows && forall x :: x in rows && x != first ==> Before(sort, first, x)
  }

  lemma {:induction false} FirstExists(sort: Sort, rows: set<RequestRow>)
    requires rows != {} && DistinctIds(rows)
    ensures exists first :: IsFirst(sort, first, rows)
  {
    var r :| r in rows;
    if rows == {r} {
      assert IsFirst(sort, r, rows);
    } else {
      FirstExists(sort, rows - {r});
      var other :| IsFirst(sort, other, rows - {r});
      assert other.id != r.id;
      var first := if Before(sort, r, other) then r else other;
      forall x | x in rows && x != first
        ensures Before(sort, first, x)
      {
        assert x == r || x in rows - {r};
      }
      assert IsFirst(sort, first, rows);
    }
  }

  predicate InOrder(sort: Sort, s: seq<RequestRow>) {
    forall i, j :: 0 <= i < j < |s| ==> Before(sort, s[i], s[j])
  }

  lemma HasElement(s: seq<RequestRow>)
    ensures s != [] ==> exists x :: x in s
  {
    if s != [] {
      assert s[0] in s;
    }
  }

  /** `s` lists exactly the rows of the set, in order: what `ORDER BY` promises. */
  ghost predicate Lists(sort: Sort, s: seq<RequestRow>, rows: set<RequestRow>) {
    && |s| == |rows|
    && (forall x :: x in s <==> x in rows)
    && InOrder(sort, s)
  }

  lemma ListsCons(sort: Sort, first: RequestRow, rest: seq<RequestRow>, rows: set<RequestRow>)
    requires IsFirst(sort, first, rows) && Lists(sort, rest, rows - {first})
    ensures Lists(sort, [first] + rest, rows)
  {
    assert |rows - {first}| == |rows| - 1;
    var s := [first] + rest;
    forall i, j | 0 <= i < j < |s|
      ensures Before(sort, s[i], s[j])
    {
      assert s[j] in rest;
    }
  }

  lemma {:induction false} ListingExists(sort: Sort, rows: set<RequestRow>)
    requires DistinctIds(rows)
    ensures exists s :: Lists(sort, s, rows)
  {
    if rows == {} {
      assert Lists(sort, [], rows);
    } else {
      FirstExists(sort, rows);
      var first :| IsFirst(sort, first, rows);
      ListingExists(sort, rows - {first});
      var rest :| Lists(sort, rest, rows - {first});
      ListsCons(sort, first, rest, rows);
    }
  }

  /** The one listing of a set in order. */
  ghost function Listed(sort: Sort, rows: set<RequestRow>): (s: seq<RequestRow>)
    requires DistinctIds(rows)
    ensures Lists(sort, s, rows)
  {
    ListingExists(sort, rows);
    var s :| Lists(sort, s, rows);
    s
  }

  /** Only one listing of a set is in order. */
  lemma {:induction false} SortedUnique(sort: Sort, s: seq<RequestRow>, t: seq<RequestRow>)
    requires InOrder(sort, s) && InOrder(sort, t)
    requires forall x :: x in s <==> x in t
    ensures s == t
  {
    if s == [] {
      HasElement(t);
    } else {
      assert s[0] in t && t[0] in s;
      var i :| 0 <= i < |s| && s[i] == t[0];
      var j :| 0 <= j < |t| && t[j] == s[0];
      assert i == 0 || Before(sort, s[0], t[0]);
      assert j == 0 || Before(sort, t[0], s[0]);
      forall x
        ensures x in s[1..] <==> x in t[1..]
      {
        NoReturn(sort, s, x);
        NoReturn(sort, t, x);
      }
      SortedUnique(sort, s[1..], t[1..]);
      assert s == [s[0]] + s[1..] && t == [t[0]] + t[1..];
    }
  }

  lemma NoReturn(sort: Sort, s: seq<RequestRow>, x: RequestRow)
    requires InOrder(sort, s) && s != []
    ensures x in s[1..] <==> x in s && x != s[0]
  {
    if x in s[1..] {
      var i :| 0 <= i < |s| - 1 && s[1..][i] == x;
      assert Before(sort, s[0], s[i + 1]);
    }
    assert s == [s[0]] + s[1..];
  }

  /** Puts the rows of a set in order, as `ORDER BY` does. */
  method PutInOrder(sort: Sort, rows: set<RequestRow>) returns (s: seq<RequestRow>)
    requires DistinctIds(rows)
    ensures s == Listed(sort, rows)
  {
    s := [];
    if rows != {} {
      FirstExists(sort, rows);
      var first :| first in rows && IsFirst(sort, first, rows);
      var rest := PutInOrder(sort, rows - {first});
      s := [first] + rest;
      ListsCons(sort, first, rest, rows);
    }
    SortedUnique(sort, s, Listed(sort, rows));
  }
}
