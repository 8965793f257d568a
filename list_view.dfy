/**
 * What the two list pages, src/pages/HomePage.jsx and src/pages/PayrollPage.jsx,
 * do alike: pages of ten rows (`Math.ceil` of the row count, then `slice`),
 * the column toggle `prev.includes(key) ? prev.filter(...) : [...prev, key]`,
 * `Array.prototype.filter` over rows, and the search test on one value.
 */
module ListView {
  import opened JsValues

  /** `ROWS_PER_PAGE` of both pages. */
  const RowsPerPage := 10

  /** `Math.ceil(n / ROWS_PER_PAGE)`: the fewest pages of ten that hold `n` rows. */
  function TotalPages(n: nat): (t: nat)
    ensures n <= t * RowsPerPage
    ensures t == 0 || (t - 1) * RowsPerPage < n
    ensures t == 0 <==> n == 0
  {
    (n + RowsPerPage - 1) / RowsPerPage
  }

  /** `rows.slice((page - 1) * ROWS_PER_PAGE, (page - 1) * ROWS_PER_PAGE + ROWS_PER_PAGE)`. */
  function PageSlice<T>(rows: seq<T>, page: int): (r: seq<T>)
    ensures |r| <= RowsPerPage
  {
    Slice(rows, (page - 1) * RowsPerPage, (page - 1) * RowsPerPage + RowsPerPage)
  }

  /** Page `p` (from 1) holds rows `(p - 1) * 10` up to, not including, `p * 10`, as far as they exist. */
  lemma PageSliceRows<T>(rows: seq<T>, page: int)
    requires page >= 1
    ensures var start := (page - 1) * RowsPerPage;
      && (start >= |rows| ==> PageSlice(rows, page) == [])
      && (start < |rows| ==>
        PageSlice(rows, page) == rows[start..if start + RowsPerPage < |rows| then start + RowsPerPage else |rows|])
  {
  }

  /** Page 0, which `currentPage - 1` can reach, shows nothing. */
  lemma PageZeroEmpty<T>(rows: seq<T>)
    ensures PageSlice(rows, 0) == []
  {
  }

  /** Every row is shown on exactly the page its index says, at the place its index says. */
  lemma EveryRowOnItsPage<T>(rows: seq<T>, i: nat)
    requires i < |rows|
    ensures var page := i / RowsPerPage + 1;
      && 1 <= page <= TotalPages(|rows|)
      && i % RowsPerPage < |PageSlice(rows, page)|
      && PageSlice(rows, page)[i % RowsPerPage] == rows[i]
  {
    var page := i / RowsPerPage + 1;
    var start := (page - 1) * RowsPerPage;
    assert start == i - i % RowsPerPage;
    PageSliceRows(rows, page);
  }

  // ---------------------------------------------------------------- filtering and toggling

  /** `rows.filter(keep)`. */
  function FilterRows(rows: seq<Record>, keep: Record -> bool): (r: seq<Record>)
    ensures |r| <= |rows|
    ensures forall x :: x in r <==> x in rows && keep(x)
  {
    if rows == [] then []
    else
      var prev := FilterRows(rows[..|rows| - 1], keep);
      var x := rows[|rows| - 1];
      assert forall y :: y in rows <==> y in rows[..|rows| - 1] || y == x;
      if keep(x) then prev + [x] else prev
  }

  /** The filter keeps the order of the rows: it distributes over concatenation. */
  lemma {:induction false} FilterRowsAppend(a: seq<Record>, b: seq<Record>, keep: Record -> bool)
    ensures FilterRows(a + b, keep) == FilterRows(a, keep) + FilterRows(b, keep)
  {
    if b != [] {
      var n := |b| - 1;
      assert (a + b)[..|a + b| - 1] == a + b[..n];
      FilterRowsAppend(a, b[..n], keep);
    } else {
      assert a + b == a;
    }
  }

  /** Rows that all pass are returned as they are. */
  lemma {:induction false} FilterRowsAll(rows: seq<Record>, keep: Record -> bool)
    requires forall i :: 0 <= i < |rows| ==> keep(rows[i])
    ensures FilterRows(rows, keep) == rows
  {
    if rows != [] {
      FilterRowsAll(rows[..|rows| - 1], keep);
    }
  }

  /** `keys.filter((k) => k !== key)`. */
  function Without(keys: seq<string>, key: string): (r: seq<string>)
    ensures |r| <= |keys|
    ensures forall k :: k in r <==> k in keys && k != key
  {
    if keys == [] then []
    else
      var prev := Without(keys[..|keys| - 1], key);
      var k := keys[|keys| - 1];
      assert forall j :: j in keys <==> j in keys[..|keys| - 1] || j == k;
      if k != key then prev + [k] else prev
  }

  /** Removing a key that is not there changes nothing. */
  lemma {:induction false} WithoutAbsent(keys: seq<string>, key: string)
    requires key !in keys
    ensures Without(keys, key) == keys
  {
    if keys != [] {
      WithoutAbsent(keys[..|keys| - 1], key);
    }
  }

  /** `prev.includes(key) ? prev.filter((k) => k !== key) : [...prev, key]`. */
  function Toggled(keys: seq<string>, key: string): (r: seq<string>)
    ensures key in r <==> key !in keys
    ensures forall k :: k != key ==> (k in r <==> k in keys)
  {
    if key in keys then Without(keys, key) else keys + [key]
  }

  /** Showing a hidden column and hiding it again restores the list. */
  lemma ToggleTwiceRestores(keys: seq<string>, key: string)
    requires key !in keys
    ensures Toggled(Toggled(keys, key), key) == keys
  {
    assert key in keys + [key];
    assert Without(keys + [key], key) == Without(keys, key);
    WithoutAbsent(keys, key);
  }

  /** `v !== undefined && v !== null && String(v).toLowerCase().includes(lowerSearchTerm)`. */
  predicate ValueMatches(v: Option<Value>, lowerSearchTerm: string, show: real -> string)
  {
    v.Some? && v.value != Null && Contains(ToLower(Text(v.value, show)), lowerSearchTerm)
  }
}
