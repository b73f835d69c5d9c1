/** Generic table operations: selecting or deleting the rows whose key lies in a set, in table order. */
module Tables {

  /** Every earlier row stands in relation `before` to every later row (for ids: they increase). */
  ghost predicate Pairwise<T(!new)>(rows: seq<T>, before: (T, T) -> bool)
  {
    forall i, j :: 0 <= i < j < |rows| ==> before(rows[i], rows[j])
  }

  /**
   * The rows, in table order, whose key is in `keys` (when `keep`) or is not (when `!keep`):
   * `SELECT ... WHERE key IN keys`, or what `DELETE ... WHERE key IN keys` leaves behind.
   */
  function Filter<T(!new), K(==)>(rows: seq<T>, key: T -> K, keys: set<K>, keep: bool): (r: seq<T>)
    ensures forall x {:trigger x in r} :: x in r <==> x in rows && (key(x) in keys) == keep
    ensures |r| <= |rows|
  {
    if rows == [] then []
    else
      var last := rows[|rows| - 1];
      Filter(rows[..|rows| - 1], key, keys, keep) + (if (key(last) in keys) == keep then [last] else [])
  }

  function Select<T(!new), K(==)>(rows: seq<T>, key: T -> K, k: K): seq<T>
  {
    Filter(rows, key, {k}, true)
  }

  /** Appending a row that comes after every row keeps the relation. */
  lemma PairwiseAppend<T(!new)>(rows: seq<T>, x: T, before: (T, T) -> bool)
    requires Pairwise(rows, before)
    requires forall y :: y in rows ==> before(y, x)
    ensures Pairwise(rows + [x], before)
  {
    forall i, j | 0 <= i < j < |rows| + 1 ensures before((rows + [x])[i], (rows + [x])[j]) {
      if j == |rows| { assert (rows + [x])[i] == rows[i]; }
    }
  }

  lemma FilterAppend<T(!new), K>(rows: seq<T>, x: T, key: T -> K, keys: set<K>, keep: bool)
    ensures Filter(rows + [x], key, keys, keep)
         == Filter(rows, key, keys, keep) + (if (key(x) in keys) == keep then [x] else [])
  {
    assert (rows + [x])[..|rows|] == rows;
  }

  /** Filtering distributes over concatenation of tables. */
  lemma {:induction false} FilterConcat<T(!new), K>(a: seq<T>, b: seq<T>, key: T -> K, keys: set<K>, keep: bool)
    ensures Filter(a + b, key, keys, keep) == Filter(a, key, keys, keep) + Filter(b, key, keys, keep)
  {
    if b == [] {
      assert a + b == a;
    } else {
      var init, last := b[..|b| - 1], b[|b| - 1];
      var tail := if (key(last) in keys) == keep then [last] else [];
      FilterConcat(a, init, key, keys, keep);
      assert (a + b)[..|a + b| - 1] == a + init && (a + b)[|a + b| - 1] == last;
      assert Filter(a + b, key, keys, keep) == Filter(a + init, key, keys, keep) + tail;
      assert Filter(b, key, keys, keep) == Filter(init, key, keys, keep) + tail;
      var fa, fi := Filter(a, key, keys, keep), Filter(init, key, keys, keep);
      assert (fa + fi) + tail == fa + (fi + tail);
    }
  }

  /** A table whose every row is outside the filter filters to nothing. */
  lemma FilterNone<T(!new), K>(rows: seq<T>, key: T -> K, keys: set<K>, keep: bool)
    requires forall x :: x in rows ==> (key(x) in keys) != keep
    ensures Filter(rows, key, keys, keep) == []
  {
  }

  /** A table whose every row passes the filter is left as it is. */
  lemma {:induction false} FilterAll<T(!new), K>(rows: seq<T>, key: T -> K, keys: set<K>, keep: bool)
    requires forall x :: x in rows ==> (key(x) in keys) == keep
    ensures Filter(rows, key, keys, keep) == rows
  {
    if rows != [] {
      FilterAll(rows[..|rows| - 1], key, keys, keep);
      assert rows[..|rows| - 1] + [rows[|rows| - 1]] == rows;
    }
  }

  /** Filtering keeps the order of rows, so ids that increase along the table still increase. */
  lemma {:induction false} FilterPairwise<T(!new), K>(rows: seq<T>, key: T -> K, keys: set<K>, keep: bool, before: (T, T) -> bool)
    requires Pairwise(rows, before)
    ensures Pairwise(Filter(rows, key, keys, keep), before)
  {
    if rows != [] {
      var init, last := rows[..|rows| - 1], rows[|rows| - 1];
      assert Pairwise(init, before);
      FilterPairwise(init, key, keys, keep, before);
      var f := Filter(init, key, keys, keep);
      forall y | y in f ensures before(y, last) {
        var i :| 0 <= i < |init| && init[i] == y;
        assert rows[i] == y;
      }
    }
  }

  /**
   * Deleting the rows whose key is in `gone` does not change what a select on keys outside `gone` returns:
   * a delete for one session leaves every other session's rows as they were.
   */
  lemma {:induction false} SelectAfterDelete<T(!new), K>(rows: seq<T>, key: T -> K, gone: set<K>, wanted: set<K>)
    requires gone !! wanted
    ensures Filter(Filter(rows, key, gone, false), key, wanted, true) == Filter(rows, key, wanted, true)
  {
    if rows != [] {
      var init, last := rows[..|rows| - 1], rows[|rows| - 1];
      SelectAfterDelete(init, key, gone, wanted);
      var kept := Filter(init, key, gone, false);
      if key(last) in gone {
        assert Filter(rows, key, gone, false) == kept;
        assert key(last) !in wanted;
      } else {
        assert Filter(rows, key, gone, false) == kept + [last];
        FilterAppend(kept, last, key, wanted, true);
      }
    }
  }

  /** After deleting the rows whose key is in `gone`, a select on a key in `gone` returns nothing. */
  lemma SelectDeleted<T(!new), K>(rows: seq<T>, key: T -> K, gone: set<K>, wanted: set<K>)
    requires wanted <= gone
    ensures Filter(Filter(rows, key, gone, false), key, wanted, true) == []
  {
    FilterNone(Filter(rows, key, gone, false), key, wanted, true);
  }
}
