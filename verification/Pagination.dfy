/** Keyset pagination: following the cursors returns exactly the visible rows, in order, each once. */
module Pagination {
  import opened Prelude

  datatype Row<+K, +T> = Row(key: K, body: T)

  datatype Page<+K, +T> = Page(items: seq<Row<K, T>>, nextCursor: Option<K>)

  datatype PageError = InvalidPagination

  const DEFAULT_LIMIT: nat := 50
  const MAX_LIMIT: nat := 100

  function PageLimit(limit: Option<int>): Result<nat, PageError> {
    var n := if limit.None? then DEFAULT_LIMIT else limit.value;
    if n <= 0 || n > MAX_LIMIT then Err(InvalidPagination) else Ok(n)
  }

  predicate Legal(limit: Option<int>) {
    limit.None? || 1 <= limit.value <= MAX_LIMIT
  }

  // ----- What the queries ask of the database -----

  /** The WHERE clause. */
  function Where<K, T>(rows: seq<Row<K, T>>, p: Row<K, T> -> bool): seq<Row<K, T>> {
    if rows == [] then []
    else
      var last := rows[|rows| - 1];
      Where(rows[..|rows| - 1], p) + if p(last) then [last] else []
  }

  function InsertInOrder<K, T>(sorted: seq<Row<K, T>>, x: Row<K, T>, less: (K, K) -> bool): seq<Row<K, T>> {
    if sorted == [] then [x]
    else
      var last := sorted[|sorted| - 1];
      if less(x.key, last.key) then InsertInOrder(sorted[..|sorted| - 1], x, less) + [last] else sorted + [x]
  }

  /** The ORDER BY clause. */
  function OrderBy<K, T>(rows: seq<Row<K, T>>, less: (K, K) -> bool): seq<Row<K, T>> {
    if rows == [] then [] else InsertInOrder(OrderBy(rows[..|rows| - 1], less), rows[|rows| - 1], less)
  }

  /** The rows after a cursor; without a cursor, all rows. */
  function Beyond<K, T>(less: (K, K) -> bool, after: Option<K>): Row<K, T> -> bool {
    (row: Row<K, T>) => after.None? || less(after.value, row.key)
  }

  function Both<K, T>(p: Row<K, T> -> bool, q: Row<K, T> -> bool): Row<K, T> -> bool {
    (row: Row<K, T>) => p(row) && q(row)
  }

  /** The visible rows after the cursor, in order. */
  function Select<K, T>(table: seq<Row<K, T>>, visible: Row<K, T> -> bool, less: (K, K) -> bool, after: Option<K>)
    : seq<Row<K, T>>
  {
    OrderBy(Where(table, Both(visible, Beyond(less, after))), less)
  }

  function Take<T>(s: seq<T>, n: nat): seq<T> {
    if |s| <= n then s else s[..n]
  }

  /** One page: fetch one row more than asked for, and name the last row kept if there was one more. */
  function GetPage<K, T>(table: seq<Row<K, T>>, visible: Row<K, T> -> bool, less: (K, K) -> bool, after: Option<K>,
                         limit: Option<int>): Result<Page<K, T>, PageError>
  {
    match PageLimit(limit)
    case Err(e) => Err(e)
    case Ok(n) =>
      var rows := Take(Select(table, visible, less, after), n + 1);
      var items := Take(rows, n);
      Ok(Page(items, if |rows| > n then Some(items[|items| - 1].key) else None))
  }

  // ----- Orders -----

  ghost predicate StrictTotal<K(!new)>(less: (K, K) -> bool) {
    && (forall a :: !less(a, a))
    && (forall a, b, c :: less(a, b) && less(b, c) ==> less(a, c))
    && (forall a, b :: a == b || less(a, b) || less(b, a))
  }

  ghost predicate KeysDistinct<K, T>(rows: seq<Row<K, T>>) {
    forall i, j :: 0 <= i < j < |rows| ==> rows[i].key != rows[j].key
  }

  ghost predicate Ascending<K, T>(rows: seq<Row<K, T>>, less: (K, K) -> bool) {
    forall i, j :: 0 <= i < j < |rows| ==> less(rows[i].key, rows[j].key)
  }

  lemma {:induction false} InsertPermutes<K, T>(sorted: seq<Row<K, T>>, x: Row<K, T>, less: (K, K) -> bool)
    ensures multiset(InsertInOrder(sorted, x, less)) == multiset(sorted) + multiset{x}
  {
    if sorted != [] {
      var before, last := sorted[..|sorted| - 1], sorted[|sorted| - 1];
      assert sorted == before + [last];
      if less(x.key, last.key) {
        InsertPermutes(before, x, less);
      }
    }
  }

  lemma {:induction false} InsertKeepsOrder<K(!new), T>(sorted: seq<Row<K, T>>, x: Row<K, T>, less: (K, K) -> bool)
    requires StrictTotal(less) && Ascending(sorted, less) && forall y :: y in sorted ==> y.key != x.key
    ensures Ascending(InsertInOrder(sorted, x, less), less)
  {
    hide StrictTotal, Ascending;
    if sorted == [] {
      AscendingSnoc(sorted, x, less);
      assert sorted + [x] == [x];
    } else {
      var before, last := sorted[..|sorted| - 1], sorted[|sorted| - 1];
      assert sorted == before + [last] && last in sorted;
      AscendingPrefix(sorted, less);
      TrichotomyOf(x.key, last.key, less);
      if less(x.key, last.key) {
        InsertKeepsOrder(before, x, less);
        var rest := InsertInOrder(before, x, less);
        InsertPermutes(before, x, less);
        forall y | y in rest
          ensures less(y.key, last.key)
        {
          assert y in multiset(rest);
          assert y == x || y in before;
          EarlierRowsAreLess(sorted, y, less);
        }
        AscendingSnoc(rest, last, less);
      } else {
        forall y | y in sorted
          ensures less(y.key, x.key)
        {
          EarlierRowsAreLess(sorted, y, less);
          TransitivityOf(y.key, last.key, x.key, less);
        }
        AscendingSnoc(sorted, x, less);
      }
    }
  }

  lemma AscendingSnoc<K, T>(sorted: seq<Row<K, T>>, x: Row<K, T>, less: (K, K) -> bool)
    requires Ascending(sorted, less) && forall y :: y in sorted ==> less(y.key, x.key)
    ensures Ascending(sorted + [x], less)
  {
    assert forall i :: 0 <= i < |sorted| ==> sorted[i] in sorted;
  }

  lemma AscendingPrefix<K, T>(sorted: seq<Row<K, T>>, less: (K, K) -> bool)
    requires Ascending(sorted, less) && sorted != []
    ensures Ascending(sorted[..|sorted| - 1], less)
  {
  }

  lemma EarlierRowsAreLess<K, T>(sorted: seq<Row<K, T>>, y: Row<K, T>, less: (K, K) -> bool)
    requires Ascending(sorted, less) && sorted != []
    ensures y in sorted[..|sorted| - 1] ==> less(y.key, sorted[|sorted| - 1].key)
    ensures y in sorted ==> y == sorted[|sorted| - 1] || less(y.key, sorted[|sorted| - 1].key)
  {
    if y in sorted {
      var i :| 0 <= i < |sorted| && sorted[i] == y;
    }
    if y in sorted[..|sorted| - 1] {
      var i :| 0 <= i < |sorted| - 1 && sorted[..|sorted| - 1][i] == y;
      assert sorted[i] == y;
    }
  }

  lemma TrichotomyOf<K(!new)>(a: K, b: K, less: (K, K) -> bool)
    requires StrictTotal(less)
    ensures a == b || less(a, b) || less(b, a)
  {
  }

  lemma TransitivityOf<K(!new)>(a: K, b: K, c: K, less: (K, K) -> bool)
    requires StrictTotal(less)
    ensures less(a, b) && less(b, c) ==> less(a, c)
  {
  }

  /** ORDER BY sorts and permutes. */
  lemma {:induction false} OrderBySorts<K(!new), T>(rows: seq<Row<K, T>>, less: (K, K) -> bool)
    requires StrictTotal(less) && KeysDistinct(rows)
    ensures Ascending(OrderBy(rows, less), less) && multiset(OrderBy(rows, less)) == multiset(rows)
  {
    if rows != [] {
      var before, last := rows[..|rows| - 1], rows[|rows| - 1];
      assert rows == before + [last];
      OrderBySorts(before, less);
      forall y | y in OrderBy(before, less)
        ensures y.key != last.key
      {
        assert y in multiset(before);
        var i :| 0 <= i < |before| && before[i] == y;
        assert rows[i].key != rows[|before|].key;
      }
      InsertKeepsOrder(OrderBy(before, less), last, less);
      InsertPermutes(OrderBy(before, less), last, less);
    }
  }

  // ----- Filters and order -----

  lemma {:induction false} WhereElements<K, T>(rows: seq<Row<K, T>>, p: Row<K, T> -> bool)
    ensures forall x :: x in Where(rows, p) ==> x in rows && p(x)
    ensures forall x :: x in rows && p(x) ==> x in Where(rows, p)
  {
    if rows != [] {
      var before, last := rows[..|rows| - 1], rows[|rows| - 1];
      assert rows == before + [last];
      WhereElements(before, p);
    }
  }

  lemma {:induction false} WhereTwice<K, T>(rows: seq<Row<K, T>>, p: Row<K, T> -> bool, q: Row<K, T> -> bool)
    ensures Where(rows, Both(p, q)) == Where(Where(rows, p), q)
  {
    if rows != [] {
      var before, last := rows[..|rows| - 1], rows[|rows| - 1];
      WhereTwice(before, p, q);
      if p(last) {
        assert (Where(before, p) + [last])[..|Where(before, p)|] == Where(before, p);
      } else {
        assert Where(rows, p) == Where(before, p);
      }
    }
  }

  lemma {:induction false} WhereKeepsDistinct<K, T>(rows: seq<Row<K, T>>, p: Row<K, T> -> bool)
    requires KeysDistinct(rows)
    ensures KeysDistinct(Where(rows, p))
  {
    if rows != [] {
      var before, last := rows[..|rows| - 1], rows[|rows| - 1];
      assert rows == before + [last];
      WhereKeepsDistinct(before, p);
      WhereElements(before, p);
      WhereSnoc(before, last, p);
      forall i | 0 <= i < |Where(before, p)|
        ensures Where(before, p)[i].key != last.key
      {
        var y := Where(before, p)[i];
        assert y in Where(before, p);
        assert y in before;
      }
    }
  }

  lemma WhereSnoc<K, T>(rows: seq<Row<K, T>>, x: Row<K, T>, p: Row<K, T> -> bool)
    ensures Where(rows + [x], p) == Where(rows, p) + if p(x) then [x] else []
  {
    assert (rows + [x])[..|rows|] == rows;
  }

  lemma InsertSnoc<K, T>(sorted: seq<Row<K, T>>, last: Row<K, T>, x: Row<K, T>, less: (K, K) -> bool)
    ensures InsertInOrder(sorted + [last], x, less)
         == if less(x.key, last.key) then InsertInOrder(sorted, x, less) + [last] else sorted + [last, x]
  {
    assert (sorted + [last])[..|sorted|] == sorted;
    assert sorted + [last] + [x] == sorted + [last, x];
  }

  /** Filtering an insertion inserts into the filtered list. */
  lemma {:induction false} WhereInsert<K(!new), T>(sorted: seq<Row<K, T>>, x: Row<K, T>, less: (K, K) -> bool,
                                                   p: Row<K, T> -> bool)
    requires StrictTotal(less) && Ascending(sorted, less)
    ensures Where(InsertInOrder(sorted, x, less), p)
         == if p(x) then InsertInOrder(Where(sorted, p), x, less) else Where(sorted, p)
  {
    hide StrictTotal, Ascending, Where, InsertInOrder;
    if sorted == [] {
      InsertIntoEmpty(x, less, p);
    } else {
      var before, last := sorted[..|sorted| - 1], sorted[|sorted| - 1];
      assert sorted == before + [last];
      AscendingPrefix(sorted, less);
      WhereSnoc(before, last, p);
      InsertSnoc(before, last, x, less);
      InsertSnoc(Where(before, p), last, x, less);
      if less(x.key, last.key) {
        WhereInsert(before, x, less, p);
        assert !p(last) ==> Where(sorted, p) == Where(before, p);
        WhereSnoc(InsertInOrder(before, x, less), last, p);
      } else {
        assert InsertInOrder(sorted, x, less) == sorted + [x];
        WhereSnoc(sorted, x, p);
        InsertAtEnd(sorted, x, less, p);
      }
    }
  }

  lemma InsertIntoEmpty<K, T>(x: Row<K, T>, less: (K, K) -> bool, p: Row<K, T> -> bool)
    ensures Where(InsertInOrder([], x, less), p) == (if p(x) then InsertInOrder(Where([], p), x, less) else Where([], p))
  {
    assert [x][..0] == [];
  }

  /** What is not below the greatest row is not below any filtered one. */
  lemma InsertAtEnd<K(!new), T>(sorted: seq<Row<K, T>>, x: Row<K, T>, less: (K, K) -> bool, p: Row<K, T> -> bool)
    requires StrictTotal(less) && Ascending(sorted, less) && sorted != [] && !less(x.key, sorted[|sorted| - 1].key)
    ensures InsertInOrder(Where(sorted, p), x, less) == Where(sorted, p) + [x]
  {
    hide StrictTotal, Ascending;
    if Where(sorted, p) != [] {
      var top := Where(sorted, p)[|Where(sorted, p)| - 1];
      WhereElements(sorted, p);
      assert top in Where(sorted, p);
      NotBelow(sorted, top, x, less);
    }
  }

  lemma NotBelow<K(!new), T>(sorted: seq<Row<K, T>>, y: Row<K, T>, x: Row<K, T>, less: (K, K) -> bool)
    requires StrictTotal(less) && Ascending(sorted, less) && y in sorted && !less(x.key, sorted[|sorted| - 1].key)
    ensures !less(x.key, y.key)
  {
    var i :| 0 <= i < |sorted| && sorted[i] == y;
    assert i < |sorted| - 1 ==> less(y.key, sorted[|sorted| - 1].key);
  }

  /** ORDER BY and WHERE commute. */
  lemma {:induction false} OrderWhere<K(!new), T>(rows: seq<Row<K, T>>, less: (K, K) -> bool, p: Row<K, T> -> bool)
    requires StrictTotal(less) && KeysDistinct(rows)
    ensures OrderBy(Where(rows, p), less) == Where(OrderBy(rows, less), p)
  {
    hide StrictTotal, KeysDistinct, Ascending, InsertInOrder;
    if rows != [] {
      var before, last := rows[..|rows| - 1], rows[|rows| - 1];
      LastIsNew(rows, less);
      OrderWhere(before, less, p);
      OrderBySorts(before, less);
      WhereInsert(OrderBy(before, less), last, less, p);
      assert rows == before + [last];
      WhereSnoc(before, last, p);
      if p(last) {
        assert (Where(before, p) + [last])[..|Where(before, p)|] == Where(before, p);
      } else {
        assert Where(rows, p) == Where(before, p);
      }
    }
  }

  lemma LastIsNew<K(!new), T>(rows: seq<Row<K, T>>, less: (K, K) -> bool)
    requires StrictTotal(less) && KeysDistinct(rows) && rows != []
    ensures KeysDistinct(rows[..|rows| - 1])
    ensures forall y :: y in OrderBy(rows[..|rows| - 1], less) ==> y.key != rows[|rows| - 1].key
  {
    hide StrictTotal;
    var before := rows[..|rows| - 1];
    OrderBySorts(before, less);
    forall y | y in OrderBy(before, less)
      ensures y.key != rows[|rows| - 1].key
    {
      assert y in multiset(before);
      var i :| 0 <= i < |before| && before[i] == y;
      assert rows[i].key != rows[|before|].key;
    }
  }

  // ----- Pages are slices -----

  /** All visible rows, in order: what the pages must add up to. */
  function Listing<K, T>(table: seq<Row<K, T>>, visible: Row<K, T> -> bool, less: (K, K) -> bool): seq<Row<K, T>> {
    OrderBy(Where(table, visible), less)
  }

  lemma ListingIsOrdered<K(!new), T>(table: seq<Row<K, T>>, visible: Row<K, T> -> bool, less: (K, K) -> bool)
    requires StrictTotal(less) && KeysDistinct(table)
    ensures Ascending(Listing(table, visible, less), less)
    ensures forall x :: x in Listing(table, visible, less) <==> x in table && visible(x)
  {
    WhereKeepsDistinct(table, visible);
    WhereElements(table, visible);
    OrderBySorts(Where(table, visible), less);
    forall x ensures x in Listing(table, visible, less) <==> x in Where(table, visible) {
      assert x in multiset(Listing(table, visible, less)) <==> x in multiset(Where(table, visible));
    }
  }

  /** In an ascending list, the rows beyond a cursor are a suffix. */
  lemma {:induction false} BeyondIsSuffix<K(!new), T>(s: seq<Row<K, T>>, less: (K, K) -> bool, after: Option<K>)
    requires StrictTotal(less) && Ascending(s, less)
    ensures |Where(s, Beyond(less, after))| <= |s|
    ensures Where(s, Beyond(less, after)) == s[|s| - |Where(s, Beyond(less, after))|..]
  {
    if s != [] {
      var before, last := s[..|s| - 1], s[|s| - 1];
      assert s == before + [last];
      BeyondIsSuffix(before, less, after);
      var rest := Where(before, Beyond(less, after));
      if Beyond(less, after)(last) {
        assert s[|s| - |rest| - 1..] == before[|before| - |rest|..] + [last];
      } else {
        forall x | x in before
          ensures !Beyond(less, after)(x)
        {
          var i :| 0 <= i < |before| && before[i] == x;
          assert less(s[i].key, s[|before|].key);
        }
        WhereNone(before, Beyond(less, after));
      }
    }
  }

  /** Selecting after a cursor gives the end of the listing; without a cursor, all of it. */
  lemma SelectIsSuffix<K(!new), T>(table: seq<Row<K, T>>, visible: Row<K, T> -> bool, less: (K, K) -> bool, after: Option<K>)
    requires StrictTotal(less) && KeysDistinct(table)
    ensures var s, rows := Listing(table, visible, less), Select(table, visible, less, after);
      && rows == Where(s, Beyond(less, after)) && |rows| <= |s| && rows == s[|s| - |rows|..] && Ascending(rows, less)
      && (after.None? ==> rows == s)
  {
    var s := Listing(table, visible, less);
    ListingIsOrdered(table, visible, less);
    WhereKeepsDistinct(table, visible);
    WhereTwice(table, visible, Beyond(less, after));
    OrderWhere(Where(table, visible), less, Beyond(less, after));
    BeyondIsSuffix(s, less, after);
    if after.None? {
      WhereAll(s, Beyond(less, after));
    }
  }

  lemma {:induction false} WhereAll<K, T>(s: seq<Row<K, T>>, p: Row<K, T> -> bool)
    requires forall x :: x in s ==> p(x)
    ensures Where(s, p) == s
  {
    if s != [] {
      var before, last := s[..|s| - 1], s[|s| - 1];
      assert s == before + [last];
      WhereAll(before, p);
    }
  }

  lemma {:induction false} WhereNone<K, T>(s: seq<Row<K, T>>, p: Row<K, T> -> bool)
    requires forall x :: x in s ==> !p(x)
    ensures Where(s, p) == []
  {
    if s != [] {
      var before, last := s[..|s| - 1], s[|s| - 1];
      assert s == before + [last];
      WhereNone(before, p);
    }
  }

  /** The cursor of a page's last row selects exactly the rows behind it. */
  lemma CursorContinues<K(!new), T>(table: seq<Row<K, T>>, visible: Row<K, T> -> bool, less: (K, K) -> bool, after: Option<K>,
                                    m: nat)
    requires StrictTotal(less) && KeysDistinct(table) && 0 < m <= |Select(table, visible, less, after)|
    ensures var rows := Select(table, visible, less, after);
      Select(table, visible, less, Some(rows[m - 1].key)) == rows[m..]
  {
    hide Select, Listing, StrictTotal, KeysDistinct, Ascending, Where, Beyond;
    var s, rows := Listing(table, visible, less), Select(table, visible, less, after);
    SelectIsSuffix(table, visible, less, after);
    var next := Select(table, visible, less, Some(rows[m - 1].key));
    SelectIsSuffix(table, visible, less, Some(rows[m - 1].key));
    ListingIsOrdered(table, visible, less);
    SuffixLength(s, less, |s| - |rows| + m - 1);
  }

  /** Beyond the key at position `i` lie exactly the rows behind it. */
  lemma SuffixLength<K(!new), T>(s: seq<Row<K, T>>, less: (K, K) -> bool, i: nat)
    requires StrictTotal(less) && Ascending(s, less) && i < |s|
    ensures Where(s, Beyond(less, Some(s[i].key))) == s[i + 1..]
  {
    hide Where;
    var p := Beyond<K, T>(less, Some(s[i].key));
    BeyondIsSuffix(s, less, Some(s[i].key));
    WhereElements(s, p);
    var k := |s| - |Where(s, p)|;
    assert s[i] !in s[k..] && forall j :: k <= j < |s| ==> s[j] in s[k..];
    assert i < k;
    if i + 1 < |s| {
      assert p(s[i + 1]) && s[i + 1] in s[k..];
      var j :| 0 <= j < |s[k..]| && s[k..][j] == s[i + 1];
      assert s[k + j] == s[i + 1];
      assert k + j == i + 1;
    }
  }

  /** A page is a prefix of the rows beyond its cursor, and its next cursor is its last row's key. */
  lemma PageIsPrefix<K, T>(table: seq<Row<K, T>>, visible: Row<K, T> -> bool, less: (K, K) -> bool, after: Option<K>,
                           limit: Option<int>)
    requires Legal(limit)
    ensures var rows, page := Select(table, visible, less, after), GetPage(table, visible, less, after, limit);
      && page.Ok?
      && (page.value.nextCursor.None? ==> page.value.items == rows)
      && (page.value.nextCursor.Some? ==>
            var m := |page.value.items|;
            0 < m < |rows| && page.value.items == rows[..m] && page.value.nextCursor.value == rows[m - 1].key)
  {
    hide Select;
  }

  // ----- What one page holds -----

  /** A visible row of the table that lies beyond the cursor. */
  ghost predicate Remains<K, T>(x: Row<K, T>, table: seq<Row<K, T>>, visible: Row<K, T> -> bool, less: (K, K) -> bool,
                          after: Option<K>)
  {
    x in table && visible(x) && (after.None? || less(after.value, x.key))
  }

  /**
   The first `n` remaining rows in ascending order, all of them if there are fewer; a cursor exactly if a
   remaining row is left out, and then it is the key of the last row of a full page.
   */
  ghost predicate IsPageOf<K(!new), T>(page: Page<K, T>, table: seq<Row<K, T>>, visible: Row<K, T> -> bool,
                                       less: (K, K) -> bool, after: Option<K>, n: int)
  {
    && |page.items| <= n && Ascending(page.items, less)
    && (forall x :: x in page.items ==> Remains(x, table, visible, less, after))
    && (page.nextCursor.None? ==> forall x :: x in table && Remains(x, table, visible, less, after) ==> x in page.items)
    && (page.nextCursor.Some? ==>
          && |page.items| == n > 0 && page.nextCursor.value == page.items[n - 1].key
          && (exists x :: x in table && Remains(x, table, visible, less, after) && x !in page.items)
          && forall x :: x in table && Remains(x, table, visible, less, after) && x !in page.items ==>
                           less(page.nextCursor.value, x.key))
  }

  lemma SelectedRemain<K(!new), T>(table: seq<Row<K, T>>, visible: Row<K, T> -> bool, less: (K, K) -> bool, after: Option<K>,
                                   x: Row<K, T>)
    requires StrictTotal(less) && KeysDistinct(table)
    ensures x in Select(table, visible, less, after) <==> Remains(x, table, visible, less, after)
  {
    hide Select, Listing, StrictTotal, KeysDistinct, Ascending, Where;
    SelectIsSuffix(table, visible, less, after);
    ListingIsOrdered(table, visible, less);
    WhereElements(Listing(table, visible, less), Beyond(less, after));
  }

  lemma FullPage<K(!new), T>(page: Page<K, T>, rows: seq<Row<K, T>>, table: seq<Row<K, T>>, visible: Row<K, T> -> bool,
                             less: (K, K) -> bool, after: Option<K>, n: nat)
    requires StrictTotal(less) && Ascending(rows, less) && 0 < n < |rows|
    requires forall x :: x in rows <==> Remains(x, table, visible, less, after)
    requires page.items == rows[..n] && page.nextCursor == Some(rows[n - 1].key)
    ensures IsPageOf(page, table, visible, less, after, n)
  {
    hide Remains;
    forall x | x in rows
      ensures x in page.items || less(page.nextCursor.value, x.key)
    {
      var i :| 0 <= i < |rows| && rows[i] == x;
      if i < n {
        assert page.items[i] == x;
      }
    }
    var left := rows[n];
    forall i | 0 <= i < n
      ensures page.items[i] != left
    {
      assert less(rows[i].key, left.key);
    }
    assert left in rows && left !in page.items;
    RemainsInTable(left, table, visible, less, after);
  }

  lemma RemainsInTable<K, T>(x: Row<K, T>, table: seq<Row<K, T>>, visible: Row<K, T> -> bool, less: (K, K) -> bool,
                             after: Option<K>)
    ensures Remains(x, table, visible, less, after) ==> x in table
  {
  }

  /** A page is full while rows remain; the limit is 50 unless given, and anything outside 1 to 100 is refused. */
  lemma PageIsFull<K(!new), T>(table: seq<Row<K, T>>, visible: Row<K, T> -> bool, less: (K, K) -> bool, after: Option<K>,
                               limit: Option<int>)
    requires StrictTotal(less) && KeysDistinct(table)
    ensures var n, page := if limit.Some? then limit.value else 50, GetPage(table, visible, less, after, limit);
      if 1 <= n <= 100 then page.Ok? && IsPageOf(page.value, table, visible, less, after, n) else page == Err(InvalidPagination)
  {
    hide Select, StrictTotal, KeysDistinct, Ascending, IsPageOf, Remains;
    var n, page := if limit.Some? then limit.value else 50, GetPage(table, visible, less, after, limit);
    if 1 <= n <= 100 {
      var rows := Select(table, visible, less, after);
      PageIsSlice(table, visible, less, after, limit, n);
      hide GetPage;
      SelectIsSuffix(table, visible, less, after);
      forall x
        ensures x in rows <==> Remains(x, table, visible, less, after)
      {
        SelectedRemain(table, visible, less, after, x);
      }
      if |rows| <= n {
        LastPage(page.value, rows, table, visible, less, after, n);
      } else {
        FullPage(page.value, rows, table, visible, less, after, n);
      }
    }
  }

  lemma PageIsSlice<K, T>(table: seq<Row<K, T>>, visible: Row<K, T> -> bool, less: (K, K) -> bool, after: Option<K>,
                          limit: Option<int>, n: int)
    requires 1 <= n <= 100 && n == if limit.Some? then limit.value else 50
    ensures var rows := Select(table, visible, less, after);
      GetPage(table, visible, less, after, limit)
      == Ok(if |rows| <= n then Page(rows, None) else Page(rows[..n], Some(rows[n - 1].key)))
  {
    hide Select;
    var rows := Select(table, visible, less, after);
    assert |rows| > n ==> rows[..n + 1][..n] == rows[..n];
  }

  lemma LastPage<K(!new), T>(page: Page<K, T>, rows: seq<Row<K, T>>, table: seq<Row<K, T>>, visible: Row<K, T> -> bool,
                             less: (K, K) -> bool, after: Option<K>, n: nat)
    requires Ascending(rows, less) && |rows| <= n && page == Page(rows, None)
    requires forall x :: x in rows <==> Remains(x, table, visible, less, after)
    ensures IsPageOf(page, table, visible, less, after, n)
  {
    hide Remains;
  }

  // ----- Following the cursors -----

  /** The client's walk: ask with each page's cursor until there is none, with any legal limits. */
  ghost function Follow<K(!new), T>(table: seq<Row<K, T>>, visible: Row<K, T> -> bool, less: (K, K) -> bool, after: Option<K>,
                                    limits: nat -> Option<int>, asked: nat): seq<Row<K, T>>
    requires StrictTotal(less) && KeysDistinct(table) && forall i :: Legal(limits(i))
    decreases |Select(table, visible, less, after)|
  {
    assert Legal(limits(asked));
    var page := GetPage(table, visible, less, after, limits(asked)).value;
    if page.nextCursor.None? then page.items
    else
      CursorContinues(table, visible, less, after, |page.items|);
      page.items + Follow(table, visible, less, page.nextCursor, limits, asked + 1)
  }

  lemma {:induction false} FollowIsSelect<K(!new), T>(table: seq<Row<K, T>>, visible: Row<K, T> -> bool, less: (K, K) -> bool,
                                                      after: Option<K>, limits: nat -> Option<int>, asked: nat)
    requires StrictTotal(less) && KeysDistinct(table) && forall i :: Legal(limits(i))
    ensures Follow(table, visible, less, after, limits, asked) == Select(table, visible, less, after)
    decreases |Select(table, visible, less, after)|
  {
    hide Select, StrictTotal, KeysDistinct, GetPage;
    assert Legal(limits(asked));
    PageIsPrefix(table, visible, less, after, limits(asked));
    var page := GetPage(table, visible, less, after, limits(asked)).value;
    if page.nextCursor.Some? {
      CursorContinues(table, visible, less, after, |page.items|);
      FollowIsSelect(table, visible, less, page.nextCursor, limits, asked + 1);
    }
  }

  /**
   Lossless: from the start, with any legal limits, the pages concatenate to the listing: exactly the
   visible rows of the table, in strictly ascending order, so that none repeats.
   */
  lemma PaginationIsLossless<K(!new), T>(table: seq<Row<K, T>>, visible: Row<K, T> -> bool, less: (K, K) -> bool,
                                         limits: nat -> Option<int>)
    requires StrictTotal(less) && KeysDistinct(table) && forall i :: Legal(limits(i))
    ensures var all := Follow(table, visible, less, None, limits, 0);
      Ascending(all, less) && forall x :: x in all <==> x in table && visible(x)
  {
    hide Select, Listing, StrictTotal, KeysDistinct;
    FollowIsSelect(table, visible, less, None, limits, 0);
    SelectIsSuffix(table, visible, less, None);
    ListingIsOrdered(table, visible, less);
  }

  // ----- Histories, ordered by creation time and id -----

  datatype TimeUuid = TimeUuid(createdAt: int, id: Uuid)

  predicate Earlier(a: TimeUuid, b: TimeUuid) {
    a.createdAt < b.createdAt || (a.createdAt == b.createdAt && a.id < b.id)
  }

  predicate IdsDistinct<T>(rows: seq<Row<TimeUuid, T>>) {
    forall i, j :: 0 <= i < j < |rows| ==> rows[i].key.id != rows[j].key.id
  }

  /** Visits and submissions: however many rows share a creation time, no row is lost or repeated. */
  lemma HistoryIsLossless<T>(table: seq<Row<TimeUuid, T>>, visible: Row<TimeUuid, T> -> bool, limits: nat -> Option<int>)
    requires IdsDistinct(table) && forall i :: Legal(limits(i))
    ensures StrictTotal(Earlier) && KeysDistinct(table)
    ensures var all := Follow(table, visible, Earlier, None, limits, 0);
      Ascending(all, Earlier) && forall x :: x in all <==> x in table && visible(x)
  {
    PaginationIsLossless(table, visible, Earlier, limits);
  }
}

/** The timeline of an instance, paged by event sequence. */
module TimelinePages {
  import opened Prelude
  import opened RuntimeModel
  import opened KernelState
  import opened Agreement
  import opened WriterAgreement
  import opened KernelRuns
  import opened Pagination

  predicate Below(a: int, b: int) {
    a < b
  }

  function TimelineRows(events: seq<EventFact>): (rows: seq<Row<int, EventFact>>)
    ensures |rows| == |events|
    ensures forall i :: 0 <= i < |events| ==> rows[i] == Row(events[i].eventSequence, events[i])
  {
    seq(|events|, i requires 0 <= i < |events| => Row(events[i].eventSequence, events[i]))
  }

  /** One page of the timeline. A missing cursor counts as 0. */
  function TimelinePage(events: seq<EventFact>, visible: Row<int, EventFact> -> bool, after: Option<int>, limit: Option<int>)
    : Result<Page<int, EventFact>, PageError>
  {
    if PageLimit(limit).Err? then Err(InvalidPagination)
    else if after.Some? && after.value < 0 then Err(InvalidPagination)
    else GetPage(TimelineRows(events), visible, Below, Some(if after.None? then 0 else after.value), limit)
  }

  ghost predicate Numbered(events: seq<EventFact>) {
    forall i :: 0 <= i < |events| ==> events[i].eventSequence == i + 1
  }

  lemma NumberedRows(events: seq<EventFact>)
    requires Numbered(events)
    ensures StrictTotal(Below) && Ascending(TimelineRows(events), Below) && KeysDistinct(TimelineRows(events))
  {
  }

  /** A timeline page is full while events remain; a negative cursor or a limit outside 1 to 100 is refused. */
  lemma TimelinePageIsFull(events: seq<EventFact>, visible: Row<int, EventFact> -> bool, after: Option<int>, limit: Option<int>)
    requires Numbered(events)
    ensures var n, page := if limit.Some? then limit.value else 50, TimelinePage(events, visible, after, limit);
      if 1 <= n <= 100 && (after.None? || after.value >= 0)
      then page.Ok? && IsPageOf(page.value, TimelineRows(events), visible, Below, Some(if after.Some? then after.value else 0), n)
      else page == Err(InvalidPagination)
  {
    hide GetPage, TimelineRows, IsPageOf, StrictTotal, KeysDistinct, Ascending;
    NumberedRows(events);
    PageIsFull(TimelineRows(events), visible, Below, Some(if after.Some? then after.value else 0), limit);
  }

  /** The rows that the query selects from a cursor on. */
  function TimelineFrom(events: seq<EventFact>, visible: Row<int, EventFact> -> bool, after: Option<int>)
    : seq<Row<int, EventFact>>
  {
    Select(TimelineRows(events), visible, Below, Some(if after.None? then 0 else after.value))
  }

  /** A page with a cursor leaves fewer rows behind it, and its cursor is a legal one. */
  lemma NextPageIsShorter(events: seq<EventFact>, visible: Row<int, EventFact> -> bool, after: Option<int>, limit: Option<int>)
    requires Numbered(events) && Legal(limit) && (after.None? || after.value >= 0)
    ensures var page := TimelinePage(events, visible, after, limit);
      && page.Ok?
      && (page.value.nextCursor.Some? ==>
            && page.value.nextCursor.value >= 0
            && |TimelineFrom(events, visible, page.value.nextCursor)| < |TimelineFrom(events, visible, after)|)
  {
    hide Select, TimelineRows, StrictTotal, KeysDistinct, Ascending, Numbered, Where, Listing, Beyond, Below, GetPage;
    NumberedRows(events);
    var start := Some(if after.None? then 0 else after.value);
    PageIsPrefix(TimelineRows(events), visible, Below, start, limit);
    var page := TimelinePage(events, visible, after, limit).value;
    if page.nextCursor.Some? {
      CursorContinues(TimelineRows(events), visible, Below, start, |page.items|);
      CursorIsPositive(events, visible, start, |page.items| - 1);
    }
  }

  /** The client's walk through the timeline. */
  ghost function FollowTimeline(events: seq<EventFact>, visible: Row<int, EventFact> -> bool, after: Option<int>,
                                limits: nat -> Option<int>, asked: nat): seq<Row<int, EventFact>>
    requires Numbered(events) && (forall i :: Legal(limits(i))) && (after.None? || after.value >= 0)
    decreases |TimelineFrom(events, visible, after)|
  {
    hide TimelineFrom, TimelinePage, Numbered;
    assert Legal(limits(asked));
    NextPageIsShorter(events, visible, after, limits(asked));
    var page := TimelinePage(events, visible, after, limits(asked)).value;
    if page.nextCursor.None? then page.items
    else page.items + FollowTimeline(events, visible, page.nextCursor, limits, asked + 1)
  }

  lemma CursorIsPositive(events: seq<EventFact>, visible: Row<int, EventFact> -> bool, start: Option<int>, i: nat)
    requires Numbered(events) && i < |Select(TimelineRows(events), visible, Below, start)|
    ensures Select(TimelineRows(events), visible, Below, start)[i].key > 0
  {
    hide Select, TimelineRows, Listing, StrictTotal, KeysDistinct, Ascending, Numbered, Where, Beyond;
    NumberedRows(events);
    SelectIsSuffix(TimelineRows(events), visible, Below, start);
    ListingIsOrdered(TimelineRows(events), visible, Below);
    var s, rows := Listing(TimelineRows(events), visible, Below), Select(TimelineRows(events), visible, Below, start);
    assert rows[i] == s[|s| - |rows| + i];
    assert rows[i] in s;
    RowKeysArePositive(events, rows[i]);
  }

  lemma RowKeysArePositive(events: seq<EventFact>, row: Row<int, EventFact>)
    requires Numbered(events) && row in TimelineRows(events)
    ensures row.key > 0
  {
  }

  lemma {:induction false} FollowTimelineIsSelect(events: seq<EventFact>, visible: Row<int, EventFact> -> bool,
                                                  after: Option<int>, limits: nat -> Option<int>, asked: nat)
    requires Numbered(events) && (forall i :: Legal(limits(i))) && (after.None? || after.value >= 0)
    ensures FollowTimeline(events, visible, after, limits, asked) == TimelineFrom(events, visible, after)
    decreases |TimelineFrom(events, visible, after)|
  {
    hide Select, TimelineRows, StrictTotal, KeysDistinct, Ascending, Numbered, Where, Listing, Beyond, Below, GetPage;
    NumberedRows(events);
    assert Legal(limits(asked));
    var start := Some(if after.None? then 0 else after.value);
    PageIsPrefix(TimelineRows(events), visible, Below, start, limits(asked));
    NextPageIsShorter(events, visible, after, limits(asked));
    var page := TimelinePage(events, visible, after, limits(asked)).value;
    if page.nextCursor.Some? {
      CursorContinues(TimelineRows(events), visible, Below, start, |page.items|);
      FollowTimelineIsSelect(events, visible, page.nextCursor, limits, asked + 1);
    }
  }

  lemma {:induction false} AscendingStays<K(!new), T>(rows: seq<Row<K, T>>, less: (K, K) -> bool)
    requires StrictTotal(less) && Ascending(rows, less)
    ensures OrderBy(rows, less) == rows
  {
    hide StrictTotal, Ascending;
    if rows != [] {
      var before, last := rows[..|rows| - 1], rows[|rows| - 1];
      AscendingPrefix(rows, less);
      AscendingStays(before, less);
      assert rows == before + [last];
      if before != [] {
        LastIsGreatest(rows, less);
      }
    }
  }

  lemma LastIsGreatest<K(!new), T>(rows: seq<Row<K, T>>, less: (K, K) -> bool)
    requires StrictTotal(less) && Ascending(rows, less) && |rows| >= 2
    ensures !less(rows[|rows| - 1].key, rows[|rows| - 2].key)
  {
    assert less(rows[|rows| - 2].key, rows[|rows| - 1].key);
  }

  /** Rows stored in order are listed as stored. */
  lemma StoredInOrder<K(!new), T>(rows: seq<Row<K, T>>, visible: Row<K, T> -> bool, less: (K, K) -> bool)
    requires StrictTotal(less) && Ascending(rows, less) && KeysDistinct(rows)
    ensures Listing(rows, visible, less) == Where(rows, visible)
  {
    hide StrictTotal, Ascending, KeysDistinct, OrderBy, Where;
    OrderWhere(rows, less, visible);
    AscendingStays(rows, less);
  }

  /**
   In every state of every run, paging through an instance's timeline from the start returns exactly its
   visible events, in the order in which they were written.
   */
  lemma TimelineIsLossless(catalog: Catalog, run: seq<DbState>, actions: seq<Action>, k: nat, id: Uuid,
                           visible: Row<int, EventFact> -> bool, limits: nat -> Option<int>)
    requires KeyedCatalog(catalog) && IsRun(catalog, run, actions) && k < |run| && id in run[k].ledgers
    requires forall i :: Legal(limits(i))
    ensures Numbered(run[k].ledgers[id].events)
    ensures FollowTimeline(run[k].ledgers[id].events, visible, None, limits, 0)
         == Where(TimelineRows(run[k].ledgers[id].events), visible)
  {
    hide KeyedCatalog, IsRun, Inv, Coherent, Select, Listing, OrderBy, Where, StrictTotal, Ascending, KeysDistinct,
         FollowTimeline, TimelineRows;
    var l := run[k].ledgers[id];
    RunKeepsInv(catalog, run, actions, k);
    CoherentAt(catalog, run[k], id);
    forall i | 0 <= i < |l.events|
      ensures l.events[i].eventSequence == i + 1
    {
      SequenceIsPosition(catalog, l, i);
    }
    NumberedRows(l.events);
    var rows := TimelineRows(l.events);
    FollowTimelineIsSelect(l.events, visible, None, limits, 0);
    SelectIsSuffix(rows, visible, Below, Some(0));
    StoredInOrder(rows, visible, Below);
    WhereElements(rows, visible);
    forall x | x in Where(rows, visible)
      ensures Beyond(Below, Some(0))(x)
    {
      RowKeysArePositive(l.events, x);
      assert Below(0, x.key);
    }
    WhereAll(Where(rows, visible), Beyond(Below, Some(0)));
  }
}
