/**
 * The query operations the routes ask of the database, over a table held
 * as a sequence of rows: filtering (`filter_by`), summing (`func.sum(...)
 * ... or 0`), ordering (`order_by(... .desc())`), `limit` and the
 * `paginate` helper of Flask-SQLAlchemy.
 */
module Queries {

  // ---------------------------------------------------------------- filter

  /** The rows satisfying `keep`, in table order. */
  function Filter<T>(s: seq<T>, keep: T -> bool): (r: seq<T>)
    ensures |r| <= |s|
    ensures forall k :: 0 <= k < |r| ==> keep(r[k])
    ensures multiset(r) <= multiset(s)
  {
    if s == [] then []
    else
      assert s == [s[0]] + s[1..];
      (if keep(s[0]) then [s[0]] else []) + Filter(s[1..], keep)
  }

  /** A row is kept exactly when it is in the table and satisfies the predicate. */
  lemma {:induction false} FilterMembers<T>(s: seq<T>, keep: T -> bool, x: T)
    ensures x in Filter(s, keep) <==> x in s && keep(x)
  {
    if s != [] {
      FilterMembers(s[1..], keep, x);
      assert s == [s[0]] + s[1..];
    }
  }

  /** Filtering depends only on the values of the predicate on the table's rows. */
  lemma {:induction false} FilterExt<T>(s: seq<T>, p: T -> bool, q: T -> bool)
    requires forall k :: 0 <= k < |s| ==> p(s[k]) == q(s[k])
    ensures Filter(s, p) == Filter(s, q)
  {
    if s != [] {
      FilterExt(s[1..], p, q);
    }
  }

  /** Refining a filtered query by a second predicate filters by the conjunction. */
  lemma {:induction false} FilterFilter<T>(s: seq<T>, p: T -> bool, q: T -> bool, pq: T -> bool)
    requires forall k :: 0 <= k < |s| ==> pq(s[k]) == (p(s[k]) && q(s[k]))
    ensures Filter(Filter(s, p), q) == Filter(s, pq)
  {
    if s != [] {
      FilterFilter(s[1..], p, q, pq);
      var fp := Filter(s, p);
      if p(s[0]) {
        assert fp == [s[0]] + Filter(s[1..], p);
        assert fp[0] == s[0] && fp[1..] == Filter(s[1..], p);
      } else {
        assert fp == Filter(s[1..], p);
      }
    }
  }

  // ------------------------------------------------------------------ sum

  /** `sum(amount) where keep`, with an empty match giving 0 (the `or 0` of the routes). */
  function SumWhere<T>(s: seq<T>, keep: T -> bool, amount: T -> real): (r: real)
    ensures (forall k :: 0 <= k < |s| ==> !keep(s[k])) ==> r == 0.0
    decreases |s|
  {
    if s == [] then 0.0
    else SumWhere(s[..|s| - 1], keep, amount) + (if keep(s[|s| - 1]) then amount(s[|s| - 1]) else 0.0)
  }

  /** The sum over two tables laid end to end is the sum of the two sums. */
  lemma {:induction false} SumWhereAppend<T>(a: seq<T>, b: seq<T>, keep: T -> bool, amount: T -> real)
    ensures SumWhere(a + b, keep, amount) == SumWhere(a, keep, amount) + SumWhere(b, keep, amount)
    decreases |b|
  {
    if b != [] {
      assert (a + b)[..|a + b| - 1] == a + b[..|b| - 1];
      SumWhereAppend(a, b[..|b| - 1], keep, amount);
    } else {
      assert a + b == a;
    }
  }

  /** The sum depends only on the values of the predicate on the table's rows. */
  lemma {:induction false} SumWhereExt<T>(s: seq<T>, p: T -> bool, q: T -> bool, amount: T -> real)
    requires forall k :: 0 <= k < |s| ==> p(s[k]) == q(s[k])
    ensures SumWhere(s, p, amount) == SumWhere(s, q, amount)
    decreases |s|
  {
    if s != [] {
      SumWhereExt(s[..|s| - 1], p, q, amount);
    }
  }

  /** With positive amounts, the sum is never negative, and it is positive exactly when some row matches. */
  lemma {:induction false} SumWherePositive<T>(s: seq<T>, keep: T -> bool, amount: T -> real)
    requires forall k :: 0 <= k < |s| ==> amount(s[k]) > 0.0
    ensures SumWhere(s, keep, amount) >= 0.0
    ensures SumWhere(s, keep, amount) > 0.0 <==> exists k :: 0 <= k < |s| && keep(s[k])
    decreases |s|
  {
    if s != [] {
      var init := s[..|s| - 1];
      SumWherePositive(init, keep, amount);
      if exists k :: 0 <= k < |init| && keep(init[k]) {
        var k :| 0 <= k < |init| && keep(init[k]);
        assert keep(s[k]);
      }
    }
  }

  // ---------------------------------------------------------------- order

  /** Ordered by `key`, largest first (`order_by(key.desc())`). */
  ghost predicate SortedDesc<T>(s: seq<T>, key: T -> int) {
    forall i, j :: 0 <= i < j < |s| ==> key(s[i]) >= key(s[j])
  }

  /** A row whose key is at least the head's extends a descending sequence at the front. */
  lemma SortedCons<T>(h: T, t: seq<T>, key: T -> int)
    requires SortedDesc(t, key)
    requires t == [] || key(h) >= key(t[0])
    ensures SortedDesc([h] + t, key)
  {
    var r := [h] + t;
    forall i, j | 0 <= i < j < |r| ensures key(r[i]) >= key(r[j]) {
      if i == 0 {
        assert r[j] == t[j - 1];
        assert key(t[0]) >= key(t[j - 1]);
      } else {
        assert r[i] == t[i - 1] && r[j] == t[j - 1];
      }
    }
  }

  /** Inserts `x` into a descending sequence, before the rows whose key it equals. */
  function InsertDesc<T>(x: T, s: seq<T>, key: T -> int): (r: seq<T>)
    requires SortedDesc(s, key)
    ensures |r| == |s| + 1
    ensures r[0] == x || (s != [] && r[0] == s[0])
    ensures SortedDesc(r, key)
    ensures multiset(r) == multiset(s) + multiset{x}
  {
    if s == [] || key(x) >= key(s[0]) then
      SortedCons(x, s, key);
      [x] + s
    else
      var t := InsertDesc(x, s[1..], key);
      assert s == [s[0]] + s[1..];
      SortedCons(s[0], t, key);
      [s[0]] + t
  }

  /** The rows of `s` ordered by `key`, largest first; rows with equal keys keep their table order. */
  function SortDesc<T>(s: seq<T>, key: T -> int): (r: seq<T>)
    ensures SortedDesc(r, key)
    ensures multiset(r) == multiset(s)
    ensures |r| == |s|
  {
    if s == [] then []
    else
      assert s == [s[0]] + s[1..];
      InsertDesc(s[0], SortDesc(s[1..], key), key)
  }

  /** `limit(n)`. */
  function Take<T>(s: seq<T>, n: nat): (r: seq<T>)
    ensures |r| == if |s| < n then |s| else n
    ensures r == s[..|r|]
  {
    if |s| < n then s else s[..n]
  }

  /** `order_by(key.desc()).limit(n)` keeps the rows with the largest keys: a row left out ranks below all kept ones. */
  lemma TopRowsByKey<T>(s: seq<T>, key: T -> int, n: nat, x: T)
    requires x in s
    ensures var r := Take(SortDesc(s, key), n);
      x in r || (|r| == n && forall k :: 0 <= k < |r| ==> key(r[k]) >= key(x))
  {
    var t := SortDesc(s, key);
    var r := Take(t, n);
    assert x in multiset(s);
    assert x in multiset(t);
    var i :| 0 <= i < |t| && t[i] == x;
    if i < |r| {
      assert r[i] == x;
    } else {
      forall k | 0 <= k < |r| ensures key(r[k]) >= key(x) {
        assert r[k] == t[k];
      }
    }
  }

  // ----------------------------------------------------------------- page

  /** Rows per page in the expense and income lists. */
  const PerPage: nat := 10

  /** One page of a paginated listing, or the 404 `paginate` aborts with. */
  datatype Page<T> = PageNotFound | Page(number: int, items: seq<T>, total: nat)

  /**
   * `paginate(page=page, per_page=10)` with `error_out` on: a page number
   * below 1 is a 404, and so is an empty page other than the first.
   */
  function Paginate<T>(rows: seq<T>, page: int): (r: Page<T>)
    ensures r.PageNotFound? <==> page < 1 || (page > 1 && (page - 1) * PerPage >= |rows|)
    ensures r.Page? ==> r.number == page && r.total == |rows| && |r.items| <= PerPage
    ensures r.Page? ==> forall k :: 0 <= k < |r.items| ==>
              (page - 1) * PerPage + k < |rows| && r.items[k] == rows[(page - 1) * PerPage + k]
  {
    if page < 1 then PageNotFound
    else
      var start := (page - 1) * PerPage;
      if start >= |rows| && page != 1 then PageNotFound
      else if start >= |rows| then Page(page, [], |rows|)
      else
        var stop := if start + PerPage <= |rows| then start + PerPage else |rows|;
        Page(page, rows[start..stop], |rows|)
  }

  /** Every row of a listing is on exactly one page: row `k` is item `k % 10` of page `k / 10 + 1`. */
  lemma RowOnPage<T>(rows: seq<T>, k: nat)
    requires k < |rows|
    ensures Paginate(rows, k / PerPage + 1).Page?
    ensures k % PerPage < |Paginate(rows, k / PerPage + 1).items|
    ensures Paginate(rows, k / PerPage + 1).items[k % PerPage] == rows[k]
  {
  }

  /** A page is full unless it is the last one. */
  lemma FullPagesBeforeLast<T>(rows: seq<T>, page: int)
    requires Paginate(rows, page).Page?
    requires page * PerPage <= |rows|
    ensures |Paginate(rows, page).items| == PerPage
  {
  }

  /** A page of a filtered, ordered listing holds only rows of the table that pass the filter, in key order. */
  lemma PageOfSortedFilter<T>(s: seq<T>, keep: T -> bool, key: T -> int, page: int)
    ensures var r := Paginate(SortDesc(Filter(s, keep), key), page);
      r.Page? ==>
        && (forall k :: 0 <= k < |r.items| ==> r.items[k] in s && keep(r.items[k]))
        && (forall i, j :: 0 <= i < j < |r.items| ==> key(r.items[i]) >= key(r.items[j]))
  {
    var f := Filter(s, keep);
    var sorted := SortDesc(f, key);
    var r := Paginate(sorted, page);
    if r.Page? {
      forall k | 0 <= k < |r.items| ensures r.items[k] in s && keep(r.items[k]) {
        var x := r.items[k];
        assert x == sorted[(page - 1) * PerPage + k];
        assert x in multiset(f);
        FilterMembers(s, keep, x);
      }
      forall i, j | 0 <= i < j < |r.items| ensures key(r.items[i]) >= key(r.items[j]) {
        assert r.items[i] == sorted[(page - 1) * PerPage + i];
        assert r.items[j] == sorted[(page - 1) * PerPage + j];
      }
    }
  }

  /** Every row that passes the filter is on some page of the filtered, ordered listing. */
  lemma FilteredRowIsListed<T>(s: seq<T>, keep: T -> bool, key: T -> int, x: T)
    requires x in s && keep(x)
    ensures exists page :: page >= 1 && Paginate(SortDesc(Filter(s, keep), key), page).Page? &&
                           x in Paginate(SortDesc(Filter(s, keep), key), page).items
  {
    var f := Filter(s, keep);
    var sorted := SortDesc(f, key);
    FilterMembers(s, keep, x);
    assert x in multiset(f);
    assert x in multiset(sorted);
    var k :| 0 <= k < |sorted| && sorted[k] == x;
    RowOnPage(sorted, k);
    assert Paginate(sorted, k / PerPage + 1).items[k % PerPage] == x;
  }
}
