/**
 Keyset pagination. A table is a set of rows with unique ids; a cursor is the (id, sortValue)
 pair of the last row of a page. A traversal fetches page after page, possibly from a table
 that other writers change between fetches.
 */
module CursorPagination {
  import opened Common

  datatype Row = Row(id: int, sort: int)

  datatype Direction = Asc | Desc

  datatype Page = Page(data: seq<Row>, nextCursor: Option<Row>, hasMore: bool)

  /** `buildCursorWhere` */
  predicate Where(dir: Direction, cursor: Option<Row>, r: Row) {
    match cursor
    case None => true
    case Some(c) =>
      if dir == Asc then r.sort > c.sort || (r.sort == c.sort && r.id > c.id)
      else r.sort < c.sort || (r.sort == c.sort && r.id < c.id)
  }

  /** `buildCursorOrderBy`: the tiebreak is `id ASC` in both directions. */
  predicate Before(dir: Direction, a: Row, b: Row) {
    (if dir == Asc then a.sort < b.sort else a.sort > b.sort) || (a.sort == b.sort && a.id < b.id)
  }

  /** `wrapPaginatedResponse` on the rows fetched with `LIMIT limit + 1`. */
  function Wrap(items: seq<Row>, limit: nat): Page {
    var hasMore := |items| > limit;
    var data := if hasMore then items[..limit] else items;
    Page(data, if hasMore && |data| > 0 then Some(data[|data| - 1]) else None, hasMore)
  }

  // ---------- Ordered listings ----------

  ghost predicate UniqueIds(t: set<Row>) {
    forall a, b :: a in t && b in t && a.id == b.id ==> a == b
  }

  predicate Ordered(dir: Direction, s: seq<Row>) {
    forall i, j :: 0 <= i < j < |s| ==> Before(dir, s[i], s[j])
  }

  ghost predicate IsFirst(dir: Direction, t: set<Row>, m: Row) {
    m in t && forall r :: r in t && r != m ==> Before(dir, m, r)
  }

  lemma FirstExists(dir: Direction, t: set<Row>)
    requires t != {} && UniqueIds(t)
    ensures exists m :: IsFirst(dir, t, m)
  {
    var m :| m in t;
    if t == {m} {
      assert IsFirst(dir, t, m);
    } else {
      FirstExists(dir, t - {m});
      var n :| IsFirst(dir, t - {m}, n);
      var k := if Before(dir, n, m) then n else m;
      assert n.id != m.id;
      forall r | r in t && r != k ensures Before(dir, k, r) {
        if r != m && r != n { assert r in t - {m} && Before(dir, n, r); }
      }
      assert IsFirst(dir, t, k);
    }
  }

  /** The rows of a table in query order. */
  ghost function Listing(dir: Direction, t: set<Row>): (s: seq<Row>)
    requires UniqueIds(t)
    ensures Ordered(dir, s)
    ensures forall r :: r in s <==> r in t
    ensures |s| == |t|
  {
    if t == {} then []
    else
      FirstExists(dir, t);
      var m :| IsFirst(dir, t, m);
      [m] + Listing(dir, t - {m})
  }

  lemma HasMember(rows: seq<Row>)
    ensures rows != [] ==> exists r :: r in rows
  {
    if rows != [] { assert rows[0] in rows; }
  }

  /** Ordering determines a listing: there is only one sequence a query can return. */
  lemma {:induction false} OrderedUnique(dir: Direction, a: seq<Row>, b: seq<Row>)
    requires Ordered(dir, a) && Ordered(dir, b) && forall r :: r in a <==> r in b
    ensures a == b
  {
    if a == [] {
      HasMember(b);
    } else {
      assert a[0] in b && b != [];
      assert b[0] in a;
      assert a[0] == b[0];
      forall r ensures r in a[1..] <==> r in b[1..] {
        if r in a[1..] {
          var i :| 1 <= i < |a| && a[i] == r;
          assert r in a && r != b[0];
        }
        if r in b[1..] {
          var i :| 1 <= i < |b| && b[i] == r;
          assert r in b && r != a[0];
        }
      }
      OrderedUnique(dir, a[1..], b[1..]);
    }
  }

  ghost function Filter(dir: Direction, t: set<Row>, cursor: Option<Row>): (f: set<Row>)
    ensures UniqueIds(t) ==> UniqueIds(f)
    ensures forall r :: r in f <==> r in t && Where(dir, cursor, r)
  {
    set r | r in t && Where(dir, cursor, r)
  }

  /** `SELECT ... WHERE ... ORDER BY ... LIMIT limit + 1`, then the wrapper. */
  ghost function FetchPage(dir: Direction, t: set<Row>, cursor: Option<Row>, limit: nat): Page
    requires UniqueIds(t)
  {
    var rows := Listing(dir, Filter(dir, t, cursor));
    Wrap(rows[..Min(limit + 1, |rows|)], limit)
  }

  lemma PageShape(dir: Direction, t: set<Row>, cursor: Option<Row>, limit: nat)
    requires UniqueIds(t) && limit >= 1
    ensures var rows, p := Listing(dir, Filter(dir, t, cursor)), FetchPage(dir, t, cursor, limit);
            && p.data == rows[..Min(limit, |rows|)]
            && (p.nextCursor.Some? <==> |rows| > limit)
            && (p.hasMore <==> |rows| > limit)
            && (p.nextCursor.Some? ==> p.nextCursor.value == rows[limit - 1])
  {
  }

  lemma OrderedConcat(dir: Direction, a: seq<Row>, b: seq<Row>)
    requires Ordered(dir, a) && Ordered(dir, b)
    requires a != [] ==> forall y :: y in b ==> Before(dir, a[|a| - 1], y)
    ensures Ordered(dir, a + b)
  {
    forall i, j | 0 <= i < j < |a + b| ensures Before(dir, (a + b)[i], (a + b)[j]) {
      if i < |a| <= j {
        assert (a + b)[j] == b[j - |a|] && b[j - |a|] in b;
        if i < |a| - 1 { assert Before(dir, a[i], a[|a| - 1]); }
      }
    }
  }

  // ---------- Traversal under concurrent writes ----------

  /** All rows yielded when page `k` is fetched from `tables[k]`. */
  ghost function Collect(dir: Direction, tables: seq<set<Row>>, cursor: Option<Row>, limit: nat): seq<Row>
    requires forall t :: t in tables ==> UniqueIds(t)
  {
    if tables == [] then []
    else
      var p := FetchPage(dir, tables[0], cursor, limit);
      p.data + if p.nextCursor.Some? then Collect(dir, tables[1..], p.nextCursor, limit) else []
  }

  /** The traversal received a page without a next cursor. */
  ghost predicate Finished(dir: Direction, tables: seq<set<Row>>, cursor: Option<Row>, limit: nat)
    requires forall t :: t in tables ==> UniqueIds(t)
  {
    tables != [] &&
    var p := FetchPage(dir, tables[0], cursor, limit);
    p.nextCursor.None? || Finished(dir, tables[1..], p.nextCursor, limit)
  }

  /** In `desc` the cursor comparison and the ORDER BY disagree on rows sharing a sort value. */
  ghost predicate NoTies(tables: seq<set<Row>>) {
    forall i, j, a, b :: 0 <= i < |tables| && 0 <= j < |tables| && a in tables[i] && b in tables[j] && a != b ==> a.sort != b.sort
  }

  /** Everything yielded passed the cursor and came from one of the tables. */
  ghost predicate Sound(dir: Direction, tables: seq<set<Row>>, cursor: Option<Row>, s: seq<Row>) {
    forall r :: r in s ==> Where(dir, cursor, r) && exists i :: 0 <= i < |tables| && r in tables[i]
  }

  /** Everything that passes the cursor and is in every table was yielded. */
  ghost predicate Complete(dir: Direction, tables: seq<set<Row>>, cursor: Option<Row>, s: seq<Row>) {
    forall r :: (forall i :: 0 <= i < |tables| ==> r in tables[i]) && Where(dir, cursor, r) ==> r in s
  }

  lemma SoundStep(dir: Direction, tables: seq<set<Row>>, cursor: Option<Row>, data: seq<Row>, c: Row, more: seq<Row>)
    requires tables != [] && c in tables[0] && Where(dir, cursor, c)
    requires forall r :: r in data ==> r in tables[0] && Where(dir, cursor, r)
    requires dir == Desc ==> NoTies(tables)
    requires Sound(dir, tables[1..], Some(c), more)
    ensures forall r :: r in more ==> Before(dir, c, r)
    ensures Sound(dir, tables, cursor, data + more)
  {
    forall r | r in more
      ensures Before(dir, c, r) && Where(dir, cursor, r) && exists i :: 0 <= i < |tables| && r in tables[i]
    {
      var i :| 0 <= i < |tables[1..]| && r in tables[1..][i];
      assert r in tables[i + 1] && Where(dir, Some(c), r) && r != c;
    }
  }

  lemma CompleteStep(dir: Direction, tables: seq<set<Row>>, cursor: Option<Row>, rows: seq<Row>, k: nat, more: seq<Row>)
    requires tables != [] && 0 < k <= |rows| && Ordered(dir, rows)
    requires forall r :: r in rows <==> r in tables[0] && Where(dir, cursor, r)
    requires dir == Desc ==> NoTies(tables)
    requires Complete(dir, tables[1..], Some(rows[k - 1]), more)
    ensures Complete(dir, tables, cursor, rows[..k] + more)
  {
    OrderedSlices(dir, rows, k);
    hide Ordered;
    var c := rows[k - 1];
    assert c in rows && rows[..k][k - 1] == c;
    forall r | (forall i :: 0 <= i < |tables| ==> r in tables[i]) && Where(dir, cursor, r) && r !in rows[..k]
      ensures r in more
    {
      assert r in tables[0] && r in rows[k..] && Before(dir, c, r);
      assert Where(dir, Some(c), r);
      assert forall i :: 0 <= i < |tables[1..]| ==> r in tables[1..][i];
    }
  }

  lemma {:induction false} CollectFrom(dir: Direction, tables: seq<set<Row>>, cursor: Option<Row>, limit: nat)
    requires limit >= 1 && forall t :: t in tables ==> UniqueIds(t)
    requires dir == Desc ==> NoTies(tables)
    ensures Ordered(dir, Collect(dir, tables, cursor, limit))
    ensures Sound(dir, tables, cursor, Collect(dir, tables, cursor, limit))
    ensures Finished(dir, tables, cursor, limit) ==> Complete(dir, tables, cursor, Collect(dir, tables, cursor, limit))
  {
    if tables == [] {
      assert Collect(dir, tables, cursor, limit) == [];
    } else {
      var rows, p := Listing(dir, Filter(dir, tables[0], cursor)), FetchPage(dir, tables[0], cursor, limit);
      hide Listing, FetchPage, Filter, Ordered, Sound, Complete, NoTies;
      PageFacts(dir, tables, cursor, limit);
      if p.nextCursor.None? {
        LastPage(dir, tables, cursor, rows);
        assert Collect(dir, tables, cursor, limit) == p.data + [] == rows;
      } else {
        var c := rows[limit - 1];
        TailNoTies(dir, tables);
        CollectFrom(dir, tables[1..], p.nextCursor, limit);
        var more := Collect(dir, tables[1..], p.nextCursor, limit);
        assert Collect(dir, tables, cursor, limit) == p.data + more;
        SoundStep(dir, tables, cursor, p.data, c, more);
        OrderedConcat(dir, p.data, more);
        if Finished(dir, tables, cursor, limit) {
          CompleteStep(dir, tables, cursor, rows, limit, more);
        }
      }
    }
  }

  lemma LastPage(dir: Direction, tables: seq<set<Row>>, cursor: Option<Row>, rows: seq<Row>)
    requires tables != [] && forall r :: r in rows <==> r in tables[0] && Where(dir, cursor, r)
    ensures Sound(dir, tables, cursor, rows) && Complete(dir, tables, cursor, rows)
  {
    hide Where;
  }

  lemma PageFacts(dir: Direction, tables: seq<set<Row>>, cursor: Option<Row>, limit: nat)
    requires limit >= 1 && tables != [] && UniqueIds(tables[0])
    ensures var rows, p := Listing(dir, Filter(dir, tables[0], cursor)), FetchPage(dir, tables[0], cursor, limit);
            && p.data == rows[..Min(limit, |rows|)] && Ordered(dir, p.data)
            && (forall r :: r in p.data ==> r in tables[0] && Where(dir, cursor, r))
            && (p.nextCursor.Some? ==> |rows| > limit && p.nextCursor.value == rows[limit - 1] && rows[limit - 1] in p.data)
            && (p.nextCursor.None? ==> p.data == rows)
  {
    var rows, p := Listing(dir, Filter(dir, tables[0], cursor)), FetchPage(dir, tables[0], cursor, limit);
    PageShape(dir, tables[0], cursor, limit);
    hide Listing, FetchPage, Filter, Where, UniqueIds;
    OrderedSlices(dir, rows, Min(limit, |rows|));
    hide Ordered;
    assert forall x :: x in p.data ==> x in rows;
    if p.nextCursor.Some? { assert p.data[limit - 1] == rows[limit - 1]; }
  }

  lemma TailNoTies(dir: Direction, tables: seq<set<Row>>)
    requires tables != [] && (dir == Desc ==> NoTies(tables))
    ensures dir == Desc ==> NoTies(tables[1..])
  {
    assert forall i :: 0 <= i < |tables[1..]| ==> tables[1..][i] == tables[i + 1];
  }

  lemma OrderedSlices(dir: Direction, rows: seq<Row>, k: nat)
    requires Ordered(dir, rows) && k <= |rows|
    ensures Ordered(dir, rows[..k]) && Ordered(dir, rows[k..])
    ensures rows == rows[..k] + rows[k..]
    ensures k > 0 ==> forall r :: r in rows[k..] ==> Before(dir, rows[k - 1], r)
    ensures forall r :: r in rows ==> r in rows[..k] || r in rows[k..]
  {
  }

  /**
   With arbitrary inserts, deletes and updates between fetches, a traversal yields strictly
   ordered rows, so none twice; once finished it contains every row present throughout.
   In `asc` always; in `desc` when no two rows share a sort value.
   */
  lemma TraversalUnderWrites(dir: Direction, tables: seq<set<Row>>, limit: nat)
    requires limit >= 1 && forall t :: t in tables ==> UniqueIds(t)
    requires dir == Desc ==> NoTies(tables)
    ensures var all := Collect(dir, tables, None, limit);
            && (forall i, j :: 0 <= i < j < |all| ==> Before(dir, all[i], all[j]) && all[i] != all[j])
            && (Finished(dir, tables, None, limit) ==>
                  forall r :: (forall i :: 0 <= i < |tables| ==> r in tables[i]) ==> r in all)
  {
    CollectFrom(dir, tables, None, limit);
  }

  // ---------- Traversal of a table that does not change ----------

  lemma CursorShrinks(dir: Direction, t: set<Row>, cursor: Option<Row>, c: Row)
    requires c in Filter(dir, t, cursor)
    ensures Filter(dir, t, Some(c)) < Filter(dir, t, cursor)
    ensures |Filter(dir, t, Some(c))| < |Filter(dir, t, cursor)|
  {
    var small, big := Filter(dir, t, Some(c)), Filter(dir, t, cursor);
    assert c in big && c !in small && small <= big;
    SmallerSet(small, big);
  }

  lemma SmallerSet<T>(a: set<T>, b: set<T>)
    requires a < b
    ensures |a| < |b|
  {
    var x :| x in b && x !in a;
    assert a <= b - {x};
    SubsetSize(a, b - {x});
  }

  lemma {:induction false} SubsetSize<T>(a: set<T>, b: set<T>)
    requires a <= b
    ensures |a| <= |b|
  {
    if a != {} {
      var x :| x in a;
      SubsetSize(a - {x}, b - {x});
    }
  }

  /** The full traversal of a static table. That this function terminates, ties or not, is the lemma in its body. */
  ghost function Traverse(dir: Direction, t: set<Row>, cursor: Option<Row>, limit: nat): seq<Row>
    requires UniqueIds(t) && limit >= 1
    decreases |Filter(dir, t, cursor)|
  {
    var p := FetchPage(dir, t, cursor, limit);
    p.data +
    if p.nextCursor.Some? then
      (PageShape(dir, t, cursor, limit); CursorShrinks(dir, t, cursor, p.nextCursor.value);
       Traverse(dir, t, p.nextCursor, limit))
    else []
  }

  /** Enough fetches finish, and they yield the traversal. */
  lemma {:induction false} TraverseIsCollect(dir: Direction, t: set<Row>, cursor: Option<Row>, limit: nat, fetches: nat)
    requires UniqueIds(t) && limit >= 1 && fetches > |Filter(dir, t, cursor)|
    ensures Finished(dir, seq(fetches, _ => t), cursor, limit)
    ensures Collect(dir, seq(fetches, _ => t), cursor, limit) == Traverse(dir, t, cursor, limit)
    decreases fetches
  {
    hide Listing, FetchPage, Filter;
    var p := FetchPage(dir, t, cursor, limit);
    assert seq(fetches, _ => t)[1..] == seq(fetches - 1, _ => t);
    if p.nextCursor.Some? {
      PageShape(dir, t, cursor, limit);
      CursorShrinks(dir, t, cursor, p.nextCursor.value);
      TraverseIsCollect(dir, t, p.nextCursor, limit, fetches - 1);
    }
  }

  lemma {:induction false} TraverseWithin(dir: Direction, t: set<Row>, cursor: Option<Row>, limit: nat)
    requires UniqueIds(t) && limit >= 1
    ensures forall r :: r in Traverse(dir, t, cursor, limit) ==> r in Filter(dir, t, cursor)
    decreases |Filter(dir, t, cursor)|
  {
    PageShape(dir, t, cursor, limit);
    var p := FetchPage(dir, t, cursor, limit);
    assert forall x :: x in p.data ==> x in Listing(dir, Filter(dir, t, cursor));
    if p.nextCursor.Some? {
      CursorShrinks(dir, t, cursor, p.nextCursor.value);
      TraverseWithin(dir, t, p.nextCursor, limit);
    }
  }

  /** No other row of the table shares this row's sort value. */
  ghost predicate Untied(t: set<Row>, c: Row) {
    forall r :: r in t && r != c ==> r.sort != c.sort
  }

  /** The last row of page after page of the listing: positions limit-1, 2*limit-1, ... except the end of the listing. */
  ghost predicate BoundariesUntied(t: set<Row>, rows: seq<Row>, limit: nat)
    requires limit >= 1
  {
    forall j :: 0 < j < |rows| && j % limit == 0 ==> Untied(t, rows[j - 1])
  }

  /** What the cursor at position `j` lets through is exactly the rest of the listing, if its row is untied (or in `asc`). */
  lemma RestOfListing(dir: Direction, t: set<Row>, j: nat)
    requires UniqueIds(t) && 0 < j <= |Listing(dir, t)|
    requires dir == Asc || Untied(t, Listing(dir, t)[j - 1])
    ensures Listing(dir, Filter(dir, t, Some(Listing(dir, t)[j - 1]))) == Listing(dir, t)[j..]
  {
    hide Listing, Filter;
    var rows := Listing(dir, t);
    var c := rows[j - 1];
    var rest := Listing(dir, Filter(dir, t, Some(c)));
    assert c in t by { assert c in rows; }
    forall r ensures r in rest <==> r in rows[j..] {
      if r in rows[j..] {
        var k :| j <= k < |rows| && rows[k] == r;
        assert Before(dir, c, r) && r in t;
      }
      if r in rest {
        assert r in t && r in rows;
        var k :| 0 <= k < |rows| && rows[k] == r;
        assert k < j - 1 ==> Before(dir, r, c);
        assert k >= j;
        assert rows[j..][k - j] == r;
      }
    }
    OrderedUnique(dir, rest, rows[j..]);
  }

  /** From an aligned position with an untied cursor, or from the start, one page follows the listing. */
  lemma AlignedPage(dir: Direction, t: set<Row>, j: nat, limit: nat, cursor: Option<Row>)
    requires UniqueIds(t) && limit >= 1 && j <= |Listing(dir, t)|
    requires cursor == if j == 0 then None else Some(Listing(dir, t)[j - 1])
    requires j > 0 && dir == Desc ==> Untied(t, Listing(dir, t)[j - 1])
    ensures var rows, p := Listing(dir, t), FetchPage(dir, t, cursor, limit);
            && p.data == rows[j..Min(j + limit, |rows|)]
            && p.nextCursor == if j + limit < |rows| then Some(rows[j + limit - 1]) else None
  {
    hide Listing, FetchPage;
    PageShape(dir, t, cursor, limit);
    if j == 0 {
      assert Filter(dir, t, None) == t;
    } else {
      hide Filter;
      RestOfListing(dir, t, j);
    }
  }

  /** One page of a traversal, and the rest. */
  lemma TraverseStep(dir: Direction, t: set<Row>, cursor: Option<Row>, limit: nat)
    requires UniqueIds(t) && limit >= 1
    ensures var p := FetchPage(dir, t, cursor, limit);
            Traverse(dir, t, cursor, limit) == p.data + if p.nextCursor.Some? then Traverse(dir, t, p.nextCursor, limit) else []
  {
    hide Listing, FetchPage, Filter;
  }

  lemma Cut(rows: seq<Row>, j: nat, k: nat)
    requires j <= k <= |rows|
    ensures rows[j..k] + rows[k..] == rows[j..]
  {
  }

  lemma {:induction false} TraverseAligned(dir: Direction, t: set<Row>, j: nat, limit: nat, cursor: Option<Row>)
    requires UniqueIds(t) && limit >= 1 && j <= |Listing(dir, t)| && j % limit == 0
    requires cursor == if j == 0 then None else Some(Listing(dir, t)[j - 1])
    requires dir == Desc ==> BoundariesUntied(t, Listing(dir, t), limit)
    requires j > 0 ==> j < |Listing(dir, t)|
    ensures Traverse(dir, t, cursor, limit) == Listing(dir, t)[j..]
    decreases |Listing(dir, t)| - j
  {
    hide Listing, FetchPage, Filter, Traverse, UniqueIds, Untied;
    var rows := Listing(dir, t);
    AlignedPage(dir, t, j, limit, cursor);
    TraverseStep(dir, t, cursor, limit);
    if j + limit < |rows| {
      NextMultiple(j, limit);
      TraverseAligned(dir, t, j + limit, limit, Some(rows[j + limit - 1]));
      Cut(rows, j, j + limit);
    } else {
      Cut(rows, j, |rows|);
    }
  }

  lemma NextMultiple(j: nat, limit: nat)
    requires limit >= 1 && j % limit == 0
    ensures (j + limit) % limit == 0
  {
    assert j == limit * (j / limit) + j % limit;
    assert j + limit == limit * (j / limit + 1);
    QuotientUnique(j + limit, limit, j / limit + 1, 0);
  }

  /** In `asc` the pages of a static table concatenate to the sorted table. */
  lemma AscTraversalIsListing(t: set<Row>, limit: nat)
    requires UniqueIds(t) && limit >= 1
    ensures Traverse(Asc, t, None, limit) == Listing(Asc, t)
  {
    QuotientUnique(0, limit, 0, 0);
    TraverseAligned(Asc, t, 0, limit, None);
  }

  /** A tied cursor row sends the traversal off the listing: the next page goes back, or rows are skipped. */
  lemma TiedCursorDiverges(t: set<Row>, j: nat, limit: nat)
    requires UniqueIds(t) && limit >= 1 && 0 < j < |Listing(Desc, t)|
    requires !Untied(t, Listing(Desc, t)[j - 1])
    ensures Traverse(Desc, t, Some(Listing(Desc, t)[j - 1]), limit) != Listing(Desc, t)[j..]
  {
    hide Listing, FetchPage, Filter;
    var rows := Listing(Desc, t);
    var c := rows[j - 1];
    var got := Traverse(Desc, t, Some(c), limit);
    assert c in t by { assert c in rows; }
    var r :| r in t && r != c && r.sort == c.sort;
    assert r in rows && r.id != c.id;
    if r.id > c.id {
      TraverseWithin(Desc, t, Some(c), limit);
      LaterInListing(Desc, t, j, r);
      assert r in rows[j..] && r !in got;
    } else {
      PageShape(Desc, t, Some(c), limit);
      var rest := Listing(Desc, Filter(Desc, t, Some(c)));
      assert r in rest;
      assert got[0] == rest[0];
      HeadOfTies(t, c, r);
      assert Before(Desc, c, rows[j]);
      assert got[0] != rows[j..][0];
    }
  }

  /** A row that comes after a listed row is in the listing's tail. */
  lemma LaterInListing(dir: Direction, t: set<Row>, j: nat, r: Row)
    requires UniqueIds(t) && 0 < j <= |Listing(dir, t)| && r in t && Before(dir, Listing(dir, t)[j - 1], r)
    ensures r in Listing(dir, t)[j..]
  {
    hide Listing;
    var rows := Listing(dir, t);
    assert r in rows;
    var k :| 0 <= k < |rows| && rows[k] == r;
    assert k < j - 1 ==> Before(dir, r, rows[j - 1]);
    assert rows[j..][k - j] == r;
  }

  /** After a tied cursor the next page starts with a row of the same sort value and a smaller id: one already listed. */
  lemma HeadOfTies(t: set<Row>, c: Row, r: Row)
    requires UniqueIds(t) && r in t && r.sort == c.sort && r.id < c.id
    ensures var rest := Listing(Desc, Filter(Desc, t, Some(c)));
            rest != [] && rest[0].sort == c.sort && rest[0].id < c.id
  {
    hide Listing, Filter;
    var rest := Listing(Desc, Filter(Desc, t, Some(c)));
    assert r in rest;
    assert rest[0] in rest;
    var m :| 0 <= m < |rest| && rest[m] == r;
  }

  lemma {:induction false} TraverseReachesBadBoundary(t: set<Row>, j: nat, limit: nat, cursor: Option<Row>, bad: nat)
    requires UniqueIds(t) && limit >= 1 && j % limit == 0 && bad % limit == 0 && j <= bad < |Listing(Desc, t)| && bad > 0
    requires cursor == if j == 0 then None else Some(Listing(Desc, t)[j - 1])
    requires !Untied(t, Listing(Desc, t)[bad - 1])
    requires forall i :: 0 < i < bad && i % limit == 0 ==> Untied(t, Listing(Desc, t)[i - 1])
    ensures Traverse(Desc, t, cursor, limit) != Listing(Desc, t)[j..]
    decreases bad - j
  {
    hide Listing, FetchPage, Filter, Traverse;
    var rows := Listing(Desc, t);
    if j == bad {
      TiedCursorDiverges(t, j, limit);
    } else {
      AlignedPage(Desc, t, j, limit, cursor);
      TraverseStep(Desc, t, cursor, limit);
      NextMultiple(j, limit);
      NoMultipleBetween(j, bad, limit);
      var more := Traverse(Desc, t, Some(rows[j + limit - 1]), limit);
      TraverseReachesBadBoundary(t, j + limit, limit, Some(rows[j + limit - 1]), bad);
      assert Traverse(Desc, t, cursor, limit) == rows[j..j + limit] + more;
      assert rows[j..][limit..] == rows[j + limit..];
      assert (rows[j..j + limit] + more)[limit..] == more;
    }
  }

  lemma NoMultipleBetween(j: nat, bad: nat, limit: nat)
    requires limit >= 1 && j % limit == 0 && bad % limit == 0 && j < bad
    ensures j + limit <= bad
  {
    var a, b := j / limit, bad / limit;
    assert j == limit * a + j % limit && bad == limit * b + bad % limit;
    var d := limit * (b - a);
    assert bad - j == d;
    if b - a >= 1 { MulAtLeast(limit, b - a); } else if b < a { MulAtLeast(limit, a - b); }
  }

  /**
   In `desc` the pages of a static table concatenate to the sorted table exactly when no page
   ends on a row that shares its sort value with another row.
   */
  lemma DescTraversalExactlyWhenBoundariesUntied(t: set<Row>, limit: nat)
    requires UniqueIds(t) && limit >= 1
    ensures Traverse(Desc, t, None, limit) == Listing(Desc, t) <==> BoundariesUntied(t, Listing(Desc, t), limit)
  {
    hide Listing, FetchPage, Filter;
    var rows := Listing(Desc, t);
    QuotientUnique(0, limit, 0, 0);
    if BoundariesUntied(t, rows, limit) {
      TraverseAligned(Desc, t, 0, limit, None);
    } else {
      var bad := FirstBad(t, rows, limit);
      TraverseReachesBadBoundary(t, 0, limit, None, bad);
      assert rows[0..] == rows;
    }
  }

  lemma FirstBad(t: set<Row>, rows: seq<Row>, limit: nat) returns (bad: nat)
    requires limit >= 1 && !BoundariesUntied(t, rows, limit)
    ensures 0 < bad < |rows| && bad % limit == 0 && !Untied(t, rows[bad - 1])
    ensures forall i :: 0 < i < bad && i % limit == 0 ==> Untied(t, rows[i - 1])
  {
    bad := 1;
    while bad % limit != 0 || Untied(t, rows[bad - 1])
      invariant 1 <= bad < |rows|
      invariant forall i :: 0 < i < bad && i % limit == 0 ==> Untied(t, rows[i - 1])
      decreases |rows| - bad
    {
      bad := bad + 1;
    }
  }
}
