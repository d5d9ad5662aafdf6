/** Keyset pagination over the assessment table, ordered by creation time and then id. */
module Pagination {
  import opened Results
  import opened Assessments

  datatype Row = Row(id: nat, createdAt: int, tenant: nat, status: Lifecycle, hazard: HazardType)

  datatype Cursor = Cursor(createdAt: int, id: nat)

  datatype Page = Page(rows: seq<Row>, next: Option<Cursor>, hasMore: bool)

  datatype Filter = Filter(tenant: nat, status: Option<Lifecycle>, hazard: Option<HazardType>)

  type Table = set<Row>

  predicate UniqueIds(t: Table) {
    forall a, b :: a in t && b in t && a.id == b.id ==> a == b
  }

  predicate Before(a: Row, b: Row) {
    a.createdAt < b.createdAt || (a.createdAt == b.createdAt && a.id < b.id)
  }

  predicate Past(row: Row, cursor: Option<Cursor>) {
    match cursor
    case None => true
    case Some(c) => row.createdAt > c.createdAt || (row.createdAt == c.createdAt && row.id > c.id)
  }

  function At(row: Row): Cursor {
    Cursor(row.createdAt, row.id)
  }

  predicate Matches(row: Row, f: Filter) {
    && row.tenant == f.tenant
    && (f.status.Some? ==> row.status == f.status.value)
    && (f.hazard.Some? ==> row.hazard == f.hazard.value)
  }

  /** The rows a query selects. */
  function Selected(t: Table, f: Filter, cursor: Option<Cursor>): Table {
    set row <- t | Matches(row, f) && Past(row, cursor)
  }

  /** A row of the tenant that the optional filters let through and that comes after the cursor, if there is one. */
  predicate Asked(t: Table, f: Filter, cursor: Option<Cursor>, r: Row) {
    && r in t && r.tenant == f.tenant
    && (f.status == None || f.status == Some(r.status))
    && (f.hazard == None || f.hazard == Some(r.hazard))
    && (cursor == None || cursor.value.createdAt < r.createdAt
        || (cursor.value.createdAt == r.createdAt && cursor.value.id < r.id))
  }

  /** By creation time, then by id. */
  predicate InOrder(rows: seq<Row>) {
    forall i, j :: 0 <= i < j < |rows| ==>
      rows[i].createdAt < rows[j].createdAt || (rows[i].createdAt == rows[j].createdAt && rows[i].id < rows[j].id)
  }

  lemma SelectedIsAsked(t: Table, f: Filter, cursor: Option<Cursor>)
    ensures forall r :: r in Selected(t, f, cursor) <==> Asked(t, f, cursor, r)
  {}

  lemma AscendingIsInOrder(rows: seq<Row>)
    ensures Ascending(rows) <==> InOrder(rows)
  {
    forall i, j | 0 <= i < j < |rows|
      ensures Before(rows[i], rows[j])
        <==> (rows[i].createdAt < rows[j].createdAt || (rows[i].createdAt == rows[j].createdAt && rows[i].id < rows[j].id))
    {}
  }

  predicate IsLeast(t: Table, m: Row) {
    m in t && forall r <- t :: r != m ==> Before(m, r)
  }

  lemma {:induction false} LeastExists(t: Table)
    requires t != {} && UniqueIds(t)
    ensures exists m :: IsLeast(t, m)
  {
    var x :| x in t;
    var rest := t - {x};
    if rest == {} {
      assert t == {x};
      assert IsLeast(t, x);
    } else {
      LeastExists(rest);
      var y :| IsLeast(rest, y);
      assert forall r <- t :: r == x || r in rest;
      assert IsLeast(t, if Before(x, y) then x else y);
    }
  }

  predicate Ascending(rows: seq<Row>) {
    forall i, j :: 0 <= i < j < |rows| ==> Before(rows[i], rows[j])
  }

  ghost predicate Lists(rows: seq<Row>, t: Table) {
    Ascending(rows) && |rows| == |t| && forall r :: r in rows <==> r in t
  }

  lemma {:induction false} SortedExists(t: Table)
    requires UniqueIds(t)
    ensures exists rows :: Lists(rows, t)
  {
    if t == {} {
      assert Lists([], t);
    } else {
      LeastExists(t);
      var m :| IsLeast(t, m);
      SortedExists(t - {m});
      var rest :| Lists(rest, t - {m});
      LeastFirst(t, m, rest);
    }
  }

  lemma LeastFirst(t: Table, m: Row, rest: seq<Row>)
    requires IsLeast(t, m) && Lists(rest, t - {m})
    ensures Lists([m] + rest, t)
  {
    assert t == {m} + (t - {m});
  }

  /** The table in query order. */
  ghost function Sorted(t: Table): (rows: seq<Row>)
    requires UniqueIds(t)
    ensures Lists(rows, t)
  {
    SortedExists(t);
    var rows :| Lists(rows, t);
    rows
  }

  ghost function ListByTenant(t: Table, f: Filter, limit: nat, cursor: Option<Cursor>): Page
    requires UniqueIds(t)
  {
    PageOf(Sorted(Selected(t, f, cursor)), limit)
  }

  /** One row more than the page is fetched, to see whether there is another page. */
  function PageOf(found: seq<Row>, limit: nat): Page {
    var fetched := if |found| > limit + 1 then found[..limit + 1] else found;
    var hasMore := |fetched| > limit;
    var rows := if |fetched| > limit then fetched[..limit] else fetched;
    Page(rows, if hasMore && rows != [] then Some(At(rows[|rows| - 1])) else None, hasMore)
  }

  function Members(rows: seq<Row>): Table {
    set r <- rows
  }

  lemma PrefixPage(found: seq<Row>, limit: nat)
    requires limit >= 1
    ensures var page := PageOf(found, limit);
      && (page.hasMore <==> |found| > limit)
      && page.rows == (if page.hasMore then found[..limit] else found)
      && (page.hasMore ==> page.next == Some(At(page.rows[limit - 1])))
  {}

  /** A page is a prefix of what the query selects. */
  lemma PageIsPrefix(t: Table, f: Filter, limit: nat, cursor: Option<Cursor>)
    requires UniqueIds(t) && limit >= 1
    ensures var found := Sorted(Selected(t, f, cursor));
      var page := ListByTenant(t, f, limit, cursor);
      && (page.hasMore <==> |found| > limit)
      && page.rows == (if page.hasMore then found[..limit] else found)
      && (page.hasMore ==> page.next == Some(At(page.rows[limit - 1])))
  {
    PrefixPage(Sorted(Selected(t, f, cursor)), limit);
  }

  /** Its cursor is its last row, and selects exactly the rest. */
  lemma PageSplits(t: Table, f: Filter, limit: nat, cursor: Option<Cursor>)
    requires UniqueIds(t) && limit >= 1
    ensures var page := ListByTenant(t, f, limit, cursor);
      && Ascending(page.rows) && Members(page.rows) <= Selected(t, f, cursor)
      && (!page.hasMore ==> Members(page.rows) == Selected(t, f, cursor))
      && (page.hasMore ==> |page.rows| == limit && page.next == Some(At(page.rows[limit - 1]))
                           && Selected(t, f, page.next) == Selected(t, f, cursor) - Members(page.rows))
  {
    PageIsPrefix(t, f, limit, cursor);
    var found := Sorted(Selected(t, f, cursor));
    var page := ListByTenant(t, f, limit, cursor);
    forall r <- Members(page.rows) ensures r in Selected(t, f, cursor) { assert r in found; }
    if page.hasMore {
      NextSelects(t, f, cursor, found, limit);
    }
  }

  lemma NextSelects(t: Table, f: Filter, cursor: Option<Cursor>, found: seq<Row>, n: nat)
    requires Ascending(found) && 1 <= n <= |found| && forall r :: r in found <==> r in Selected(t, f, cursor)
    ensures Selected(t, f, Some(At(found[n - 1]))) == Selected(t, f, cursor) - Members(found[..n])
  {
    assert found[n - 1] in found;
    forall r <- t ensures r in Selected(t, f, Some(At(found[n - 1]))) <==> r in Selected(t, f, cursor) && r !in found[..n] {
      if r in Selected(t, f, cursor) { PastPrefix(found, n, r); }
    }
  }

  lemma PastPrefix(rows: seq<Row>, n: nat, r: Row)
    requires Ascending(rows) && 1 <= n <= |rows| && r in rows
    ensures Past(r, Some(At(rows[n - 1]))) <==> r !in rows[..n]
  {
    var i :| 0 <= i < |rows| && rows[i] == r;
    if i < n {
      assert rows[..n][i] == r;
      assert i < n - 1 ==> Before(rows[i], rows[n - 1]);
    } else {
      assert Before(rows[n - 1], rows[i]);
      forall k | 0 <= k < n ensures rows[k] != r { assert Before(rows[k], rows[i]); }
    }
  }

  lemma {:induction false} SortedUnique(a: seq<Row>, b: seq<Row>)
    requires Ascending(a) && Ascending(b) && forall r :: r in a <==> r in b
    ensures a == b
  {
    assert b == [] || b[0] in b;
    if a != [] {
      assert a[0] in b;
      assert b != [] && b[0] in a;
      var i :| 0 <= i < |b| && b[i] == a[0];
      var j :| 0 <= j < |a| && a[j] == b[0];
      assert i == 0 || j == 0;
      assert a[0] == b[0];
      forall r ensures r in a[1..] <==> r in b[1..] {
        if r in a[1..] { var k :| 1 <= k < |a| && a[k] == r; assert r in b; assert r != b[0]; }
        if r in b[1..] { var k :| 1 <= k < |b| && b[k] == r; assert r in a; assert r != a[0]; }
      }
      SortedUnique(a[1..], b[1..]);
    }
  }

  /** Following the cursor from page to page while the table stays as it is. */
  ghost function Follow(t: Table, f: Filter, limit: nat, cursor: Option<Cursor>): seq<Row>
    requires UniqueIds(t) && limit >= 1
    decreases |Selected(t, f, cursor)|
  {
    var page := ListByTenant(t, f, limit, cursor);
    PageSplits(t, f, limit, cursor);
    if !page.hasMore then page.rows
    else
      Shrinks(t, f, limit, cursor);
      page.rows + Follow(t, f, limit, page.next)
  }

  lemma Shrinks(t: Table, f: Filter, limit: nat, cursor: Option<Cursor>)
    requires UniqueIds(t) && limit >= 1 && ListByTenant(t, f, limit, cursor).hasMore
    ensures |Selected(t, f, ListByTenant(t, f, limit, cursor).next)| < |Selected(t, f, cursor)|
  {
    var page := ListByTenant(t, f, limit, cursor);
    PageSplits(t, f, limit, cursor);
    var before, after := Selected(t, f, cursor), Selected(t, f, page.next);
    var r := page.rows[0];
    assert r in Members(page.rows);
    SmallerSet(after, before, r);
  }

  lemma SmallerSet<T>(a: set<T>, b: set<T>, x: T)
    requires a <= b && x in b && x !in a
    ensures |a| < |b|
  {
    assert b == a + (b - a) && x in b - a;
  }

  /** A page holds the first rows asked for, as many as the limit if there are more; and then its cursor is its last
      row, past which exactly the others are asked for. */
  lemma PageHolds(t: Table, f: Filter, limit: nat, cursor: Option<Cursor>)
    requires UniqueIds(t) && limit >= 1
    ensures var page := ListByTenant(t, f, limit, cursor);
      && InOrder(page.rows) && |page.rows| <= limit
      && (forall r <- page.rows :: Asked(t, f, cursor, r))
      && (!page.hasMore ==> page.next == None && forall r :: Asked(t, f, cursor, r) ==> r in page.rows)
      && (page.hasMore ==>
            && |page.rows| == limit && page.next == Some(Cursor(page.rows[limit - 1].createdAt, page.rows[limit - 1].id))
            && (exists r :: Asked(t, f, cursor, r) && r !in page.rows)
            && (forall r :: Asked(t, f, page.next, r) <==> Asked(t, f, cursor, r) && r !in page.rows))
  {
    var page := ListByTenant(t, f, limit, cursor);
    PageIsPrefix(t, f, limit, cursor);
    PageSplits(t, f, limit, cursor);
    AscendingIsInOrder(page.rows);
    SelectedIsAsked(t, f, cursor);
    forall r ensures r in page.rows <==> r in Members(page.rows) {}
    if page.hasMore {
      SelectedIsAsked(t, f, page.next);
      BeyondPage(Sorted(Selected(t, f, cursor)), limit);
    }
  }

  lemma BeyondPage(found: seq<Row>, n: nat)
    requires Ascending(found) && n < |found|
    ensures found[n] in found && found[n] !in found[..n]
  {
    forall i | 0 <= i < n ensures found[i] != found[n] { assert Before(found[i], found[n]); }
  }

  /** Following the cursor to the end returns exactly the rows asked for, in order, so each of them once. */
  lemma FollowReturnsAsked(t: Table, f: Filter, limit: nat, cursor: Option<Cursor>)
    requires UniqueIds(t) && limit >= 1
    ensures var rows := Follow(t, f, limit, cursor);
      InOrder(rows) && forall r :: r in rows <==> Asked(t, f, cursor, r)
  {
    FollowReturnsAll(t, f, limit, cursor);
    SelectedIsAsked(t, f, cursor);
    AscendingIsInOrder(Sorted(Selected(t, f, cursor)));
  }

  /** The pages together are the filtered table in query order: every row once, none missing. */
  lemma {:induction false} FollowReturnsAll(t: Table, f: Filter, limit: nat, cursor: Option<Cursor>)
    requires UniqueIds(t) && limit >= 1
    ensures Follow(t, f, limit, cursor) == Sorted(Selected(t, f, cursor))
    decreases |Selected(t, f, cursor)|
  {
    var page := ListByTenant(t, f, limit, cursor);
    PageIsPrefix(t, f, limit, cursor);
    if page.hasMore {
      Shrinks(t, f, limit, cursor);
      FollowReturnsAll(t, f, limit, page.next);
      RestIsSorted(t, f, limit, cursor);
    }
  }

  lemma RestIsSorted(t: Table, f: Filter, limit: nat, cursor: Option<Cursor>)
    requires UniqueIds(t) && limit >= 1
    requires ListByTenant(t, f, limit, cursor).hasMore
    ensures var page := ListByTenant(t, f, limit, cursor);
      Sorted(Selected(t, f, cursor)) == page.rows + Sorted(Selected(t, f, page.next))
  {
    var page := ListByTenant(t, f, limit, cursor);
    PageIsPrefix(t, f, limit, cursor);
    PageSplits(t, f, limit, cursor);
    RestJoins(Selected(t, f, cursor), Selected(t, f, page.next), page.rows, limit);
  }

  lemma RestJoins(all: Table, left: Table, rows: seq<Row>, n: nat)
    requires UniqueIds(all) && UniqueIds(left) && n <= |Sorted(all)|
    requires rows == Sorted(all)[..n] && left == all - Members(rows)
    ensures Sorted(all) == rows + Sorted(left)
  {
    RestIs(all, left, Sorted(all), Sorted(left), n);
  }

  lemma RestIs(all: Table, left: Table, found: seq<Row>, rest: seq<Row>, n: nat)
    requires Ascending(found) && Ascending(rest) && n <= |found|
    requires forall r :: r in found <==> r in all
    requires forall r :: r in rest <==> r in left
    requires left == all - Members(found[..n])
    ensures rest == found[n..]
  {
    TailMembers(found, n);
    SortedUnique(rest, found[n..]);
  }

  lemma TailMembers(rows: seq<Row>, n: nat)
    requires Ascending(rows) && n <= |rows|
    ensures Ascending(rows[n..])
    ensures forall r :: r in rows[n..] <==> r in rows && r !in rows[..n]
  {
    assert rows == rows[..n] + rows[n..];
    forall i, j | 0 <= i < n <= j < |rows| ensures rows[i] != rows[j] { assert Before(rows[i], rows[j]); }
  }

  // ---- While rows are inserted between the pages ----

  predicate OnlyInserts(ts: seq<Table>) {
    && (forall i :: 0 <= i < |ts| ==> UniqueIds(ts[i]))
    && (forall i :: 0 <= i < |ts| - 1 ==> ts[i] <= ts[i + 1])
  }

  /** The rows returned when page i is read from the i-th table, and whether the last page was reached. */
  ghost function FollowGrowing(ts: seq<Table>, f: Filter, limit: nat, cursor: Option<Cursor>): (seq<Row>, bool)
    requires OnlyInserts(ts) && limit >= 1
  {
    if ts == [] then ([], false)
    else
      var page := ListByTenant(ts[0], f, limit, cursor);
      if !page.hasMore then (page.rows, true)
      else
        assert OnlyInserts(ts[1..]);
        var (rows, done) := FollowGrowing(ts[1..], f, limit, page.next);
        (page.rows + rows, done)
  }

  predicate AllPast(rows: seq<Row>, f: Filter, cursor: Option<Cursor>) {
    forall r <- rows :: Past(r, cursor) && Matches(r, f)
  }

  lemma PagePast(t: Table, f: Filter, limit: nat, cursor: Option<Cursor>)
    requires UniqueIds(t) && limit >= 1
    ensures var page := ListByTenant(t, f, limit, cursor);
      && Ascending(page.rows) && AllPast(page.rows, f, cursor)
      && (page.hasMore ==> page.rows != [] && page.next == Some(At(page.rows[|page.rows| - 1])))
  {
    PageSplits(t, f, limit, cursor);
    var page := ListByTenant(t, f, limit, cursor);
    forall r <- page.rows ensures r in Selected(t, f, cursor) { assert r in Members(page.rows); }
  }

  lemma {:induction false} InsertsKeepOrder(ts: seq<Table>, f: Filter, limit: nat, cursor: Option<Cursor>)
    requires OnlyInserts(ts) && limit >= 1
    ensures var rows := FollowGrowing(ts, f, limit, cursor).0;
      Ascending(rows) && AllPast(rows, f, cursor)
  {
    if ts != [] {
      var page := ListByTenant(ts[0], f, limit, cursor);
      PagePast(ts[0], f, limit, cursor);
      if page.hasMore {
        assert OnlyInserts(ts[1..]);
        InsertsKeepOrder(ts[1..], f, limit, page.next);
        var rest := FollowGrowing(ts[1..], f, limit, page.next).0;
        PagesJoin(page.rows, rest, page.next);
        PageMembers(ts[0], f, limit, cursor, rest);
      }
    }
  }

  lemma {:induction false} InsertsLoseNothing(ts: seq<Table>, f: Filter, limit: nat, cursor: Option<Cursor>)
    requires OnlyInserts(ts) && limit >= 1 && FollowGrowing(ts, f, limit, cursor).1
    ensures ts != [] && forall r <- Selected(ts[0], f, cursor) :: r in FollowGrowing(ts, f, limit, cursor).0
  {
    var page := ListByTenant(ts[0], f, limit, cursor);
    PageSplits(ts[0], f, limit, cursor);
    if page.hasMore {
      assert OnlyInserts(ts[1..]);
      InsertsLoseNothing(ts[1..], f, limit, page.next);
      NothingLost(ts[0], ts[1], f, limit, cursor, FollowGrowing(ts[1..], f, limit, page.next).0);
    }
  }

  /** No row comes twice or out of order, and when the last page is reached every row that was there
      from the start has been returned. */
  lemma InsertsSkipNothing(ts: seq<Table>, f: Filter, limit: nat)
    requires OnlyInserts(ts) && limit >= 1
    ensures var (rows, done) := FollowGrowing(ts, f, limit, None);
      && InOrder(rows)
      && (ts != [] ==> forall r <- rows :: Asked(ts[|ts| - 1], f, None, r))
      && (done ==> ts != [] && forall r :: Asked(ts[0], f, None, r) ==> r in rows)
  {
    var rows := FollowGrowing(ts, f, limit, None).0;
    InsertsKeepOrder(ts, f, limit, None);
    AscendingIsInOrder(rows);
    if ts != [] {
      InsertsListed(ts, f, limit, None);
      SelectedIsAsked(ts[|ts| - 1], f, None);
    }
    if FollowGrowing(ts, f, limit, None).1 {
      InsertsLoseNothing(ts, f, limit, None);
      SelectedIsAsked(ts[0], f, None);
    }
  }

  /** Every row returned is in the table in the end. */
  lemma {:induction false} InsertsListed(ts: seq<Table>, f: Filter, limit: nat, cursor: Option<Cursor>)
    requires OnlyInserts(ts) && limit >= 1 && ts != []
    ensures ts[0] <= ts[|ts| - 1]
    ensures forall r <- FollowGrowing(ts, f, limit, cursor).0 :: r in ts[|ts| - 1]
  {
    var page := ListByTenant(ts[0], f, limit, cursor);
    PageSplits(ts[0], f, limit, cursor);
    forall r <- page.rows ensures r in ts[0] { assert r in Members(page.rows); }
    if |ts| > 1 {
      assert OnlyInserts(ts[1..]);
      InsertsListed(ts[1..], f, limit, page.next);
      assert ts[0] <= ts[1];
    }
  }

  lemma PageMembers(t: Table, f: Filter, limit: nat, cursor: Option<Cursor>, rest: seq<Row>)
    requires UniqueIds(t) && limit >= 1 && ListByTenant(t, f, limit, cursor).hasMore
    requires AllPast(rest, f, ListByTenant(t, f, limit, cursor).next)
    ensures AllPast(ListByTenant(t, f, limit, cursor).rows + rest, f, cursor)
  {
    var page := ListByTenant(t, f, limit, cursor);
    PagePast(t, f, limit, cursor);
    assert page.rows[|page.rows| - 1] in page.rows;
  }

  /** A row of the first table is on its page or still selected, in the next table, past the cursor. */
  lemma NothingLost(t: Table, t': Table, f: Filter, limit: nat, cursor: Option<Cursor>, rest: seq<Row>)
    requires UniqueIds(t) && limit >= 1 && ListByTenant(t, f, limit, cursor).hasMore && t <= t'
    requires forall r <- Selected(t', f, ListByTenant(t, f, limit, cursor).next) :: r in rest
    ensures forall r <- Selected(t, f, cursor) :: r in ListByTenant(t, f, limit, cursor).rows + rest
  {
    var page := ListByTenant(t, f, limit, cursor);
    PageSplits(t, f, limit, cursor);
    forall r <- Selected(t, f, cursor) ensures r in page.rows + rest {
      if r !in page.rows {
        assert r in Selected(t, f, page.next);
        assert r in Selected(t', f, page.next);
      }
    }
  }

  lemma PagesJoin(rows: seq<Row>, rest: seq<Row>, next: Option<Cursor>)
    requires rows != [] && next == Some(At(rows[|rows| - 1]))
    requires Ascending(rows) && Ascending(rest) && forall r <- rest :: Past(r, next)
    ensures Ascending(rows + rest)
  {
    var last := rows[|rows| - 1];
    forall i, j | 0 <= i < |rows| && 0 <= j < |rest| ensures Before(rows[i], rest[j]) {
      assert rest[j] in rest;
      assert i < |rows| - 1 ==> Before(rows[i], last);
    }
  }
}
