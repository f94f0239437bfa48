/**
 * Sequences of table rows: the ordering by a timestamp column, the view of a
 * table as a map from its key column, and the row-level effects of INSERT,
 * UPDATE ... WHERE key = k, DELETE ... WHERE key = k and SELECT ... WHERE.
 * Generic in the row type; the key and timestamp columns are passed as functions.
 */
module Rows {

  import opened Wrappers

  /** Rows are ordered by the timestamp column `key` (ties in any order). */
  ghost predicate Ordered<R>(rows: seq<R>, key: R -> int) {
    forall i, j :: 0 <= i < j < |rows| ==> key(rows[i]) <= key(rows[j])
  }

  /** No two rows share a key. */
  ghost predicate UniqueIds<R>(rows: seq<R>, id: R -> string) {
    forall i, j :: 0 <= i < j < |rows| ==> id(rows[i]) != id(rows[j])
  }

  /** The table as a map from key to row; of rows sharing a key, the first one wins. */
  function ById<R>(rows: seq<R>, id: R -> string): map<string, R> {
    if rows == [] then map[] else ById(rows[1..], id)[id(rows[0]) := rows[0]]
  }

  /** Inserts `x` after every row whose timestamp is not later than x's. */
  function InsertOrdered<R>(rows: seq<R>, x: R, key: R -> int): seq<R> {
    if rows == [] || key(x) < key(rows[0]) then [x] + rows
    else [rows[0]] + InsertOrdered(rows[1..], x, key)
  }

  /** The rows satisfying `p`, in table order (SELECT ... WHERE p). */
  function Filter<R>(rows: seq<R>, p: R -> bool): seq<R> {
    if rows == [] then []
    else (if p(rows[0]) then [rows[0]] else []) + Filter(rows[1..], p)
  }

  /** Every row whose key is `k` replaced by f(row) (UPDATE ... WHERE key = k). */
  function ReplaceWhere<R>(rows: seq<R>, id: R -> string, k: string, f: R -> R): seq<R> {
    if rows == [] then []
    else [if id(rows[0]) == k then f(rows[0]) else rows[0]] + ReplaceWhere(rows[1..], id, k, f)
  }

  /** The row with key `k`, if any: the first such row. */
  function Lookup<R>(rows: seq<R>, id: R -> string, k: string): (r: Option<R>)
    ensures r.Some? <==> k in ById(rows, id)
    ensures r.Some? ==> r.value == ById(rows, id)[k] && id(r.value) == k && r.value in rows
  {
    if rows == [] then None
    else if id(rows[0]) == k then Some(rows[0])
    else Lookup(rows[1..], id, k)
  }

  // ---------------------------------------------------------------------------
  // The map view

  lemma {:induction false} ByIdKeys<R>(rows: seq<R>, id: R -> string, k: string)
    ensures k in ById(rows, id) <==> exists i :: 0 <= i < |rows| && id(rows[i]) == k
  {
    if rows != [] {
      ByIdKeys(rows[1..], id, k);
      if k in ById(rows[1..], id) {
        var i :| 0 <= i < |rows[1..]| && id(rows[1..][i]) == k;
        assert id(rows[i + 1]) == k;
      }
      if exists i :: 0 <= i < |rows| && id(rows[i]) == k {
        var i :| 0 <= i < |rows| && id(rows[i]) == k;
        if i > 0 { assert id(rows[1..][i - 1]) == k; }
      }
    }
  }

  lemma {:induction false} ByIdMember<R>(rows: seq<R>, id: R -> string, k: string)
    requires k in ById(rows, id)
    ensures ById(rows, id)[k] in rows && id(ById(rows, id)[k]) == k
  {
    if id(rows[0]) != k {
      ByIdMember(rows[1..], id, k);
    }
  }

  /** With unique keys every row is the map's value for its own key. */
  lemma {:induction false} ByIdAt<R>(rows: seq<R>, id: R -> string, i: int)
    requires UniqueIds(rows, id) && 0 <= i < |rows|
    ensures id(rows[i]) in ById(rows, id) && ById(rows, id)[id(rows[i])] == rows[i]
  {
    if i > 0 {
      assert UniqueIds(rows[1..], id) by {
        forall a, b | 0 <= a < b < |rows[1..]| ensures id(rows[1..][a]) != id(rows[1..][b]) {
          assert rows[1..][a] == rows[a + 1] && rows[1..][b] == rows[b + 1];
        }
      }
      assert rows[1..][i - 1] == rows[i];
      ByIdAt(rows[1..], id, i - 1);
      assert id(rows[0]) != id(rows[i]);
    }
  }

  // ---------------------------------------------------------------------------
  // INSERT

  lemma {:induction false} InsertOrderedElements<R>(rows: seq<R>, x: R, key: R -> int)
    ensures multiset(InsertOrdered(rows, x, key)) == multiset(rows) + multiset{x}
    ensures |InsertOrdered(rows, x, key)| == |rows| + 1
  {
    if !(rows == [] || key(x) < key(rows[0])) {
      InsertOrderedElements(rows[1..], x, key);
      assert rows == [rows[0]] + rows[1..];
    }
  }

  lemma {:induction false} InsertOrderedSorted<R>(rows: seq<R>, x: R, key: R -> int)
    requires Ordered(rows, key)
    ensures Ordered(InsertOrdered(rows, x, key), key)
  {
    var r := InsertOrdered(rows, x, key);
    if rows == [] || key(x) < key(rows[0]) {
      forall i, j | 0 <= i < j < |r| ensures key(r[i]) <= key(r[j]) {
        if i > 0 { assert r[i] == rows[i - 1] && r[j] == rows[j - 1]; }
        else { assert r[j] == rows[j - 1]; }
      }
    } else {
      var tail := InsertOrdered(rows[1..], x, key);
      assert Ordered(rows[1..], key) by {
        forall a, b | 0 <= a < b < |rows[1..]| ensures key(rows[1..][a]) <= key(rows[1..][b]) {
          assert rows[1..][a] == rows[a + 1] && rows[1..][b] == rows[b + 1];
        }
      }
      InsertOrderedSorted(rows[1..], x, key);
      InsertOrderedElements(rows[1..], x, key);
      forall j | 0 <= j < |tail| ensures key(rows[0]) <= key(tail[j]) {
        assert tail[j] in multiset(tail);
        if tail[j] != x {
          assert tail[j] in multiset(rows[1..]);
          var m :| 0 <= m < |rows[1..]| && rows[1..][m] == tail[j];
          assert rows[m + 1] == tail[j];
        }
      }
      forall i, j | 0 <= i < j < |r| ensures key(r[i]) <= key(r[j]) {
        assert r[j] == tail[j - 1];
        if i > 0 { assert r[i] == tail[i - 1]; }
      }
    }
  }

  lemma {:induction false} InsertOrderedById<R>(rows: seq<R>, x: R, id: R -> string, key: R -> int)
    requires id(x) !in ById(rows, id)
    ensures ById(InsertOrdered(rows, x, key), id) == ById(rows, id)[id(x) := x]
  {
    var r := InsertOrdered(rows, x, key);
    if rows == [] || key(x) < key(rows[0]) {
      assert r[1..] == rows;
    } else {
      assert r[1..] == InsertOrdered(rows[1..], x, key);
      assert id(x) != id(rows[0]);
      InsertOrderedById(rows[1..], x, id, key);
    }
  }

  lemma {:induction false} InsertOrderedUnique<R>(rows: seq<R>, x: R, id: R -> string, key: R -> int)
    requires UniqueIds(rows, id) && id(x) !in ById(rows, id)
    ensures UniqueIds(InsertOrdered(rows, x, key), id)
  {
    var r := InsertOrdered(rows, x, key);
    ByIdKeys(rows, id, id(x));
    if rows == [] || key(x) < key(rows[0]) {
      forall i, j | 0 <= i < j < |r| ensures id(r[i]) != id(r[j]) {
        assert r[j] == rows[j - 1];
        if i > 0 { assert r[i] == rows[i - 1]; }
      }
    } else {
      var tail := InsertOrdered(rows[1..], x, key);
      assert UniqueIds(rows[1..], id) by {
        forall a, b | 0 <= a < b < |rows[1..]| ensures id(rows[1..][a]) != id(rows[1..][b]) {
          assert rows[1..][a] == rows[a + 1] && rows[1..][b] == rows[b + 1];
        }
      }
      assert id(x) !in ById(rows[1..], id);
      InsertOrderedUnique(rows[1..], x, id, key);
      InsertOrderedElements(rows[1..], x, key);
      assert id(rows[0]) != id(x) by { assert id(rows[0]) in ById(rows, id); }
      forall j | 0 <= j < |tail| ensures id(rows[0]) != id(tail[j]) {
        assert tail[j] in multiset(tail);
        if tail[j] != x {
          assert tail[j] in multiset(rows[1..]);
          var m :| 0 <= m < |rows[1..]| && rows[1..][m] == tail[j];
          assert rows[m + 1] == tail[j];
        }
      }
      forall i, j | 0 <= i < j < |r| ensures id(r[i]) != id(r[j]) {
        assert r[j] == tail[j - 1];
        if i > 0 { assert r[i] == tail[i - 1]; }
      }
    }
  }

  // ---------------------------------------------------------------------------
  // SELECT ... WHERE and DELETE ... WHERE

  lemma {:induction false} FilterMembers<R>(rows: seq<R>, p: R -> bool, x: R)
    ensures x in Filter(rows, p) <==> x in rows && p(x)
  {
    if rows != [] {
      FilterMembers(rows[1..], p, x);
      assert rows == [rows[0]] + rows[1..];
    }
  }

  lemma {:induction false} FilterLength<R>(rows: seq<R>, p: R -> bool)
    ensures |Filter(rows, p)| <= |rows|
    ensures |Filter(rows, p)| == |rows| <==> forall i :: 0 <= i < |rows| ==> p(rows[i])
  {
    if rows != [] {
      FilterLength(rows[1..], p);
      if forall i :: 0 <= i < |rows[1..]| ==> p(rows[1..][i]) {
        if p(rows[0]) {
          forall i | 0 <= i < |rows| ensures p(rows[i]) {
            if i > 0 { assert rows[i] == rows[1..][i - 1]; }
          }
        }
      } else {
        var i :| 0 <= i < |rows[1..]| && !p(rows[1..][i]);
        assert !p(rows[i + 1]);
      }
    }
  }

  /** A filter that every row passes keeps the rows as they are. */
  lemma {:induction false} FilterAll<R>(rows: seq<R>, p: R -> bool)
    requires forall i :: 0 <= i < |rows| ==> p(rows[i])
    ensures Filter(rows, p) == rows
  {
    if rows != [] {
      assert forall i :: 0 <= i < |rows[1..]| ==> p(rows[1..][i]) by {
        forall i | 0 <= i < |rows[1..]| ensures p(rows[1..][i]) { assert rows[1..][i] == rows[i + 1]; }
      }
      FilterAll(rows[1..], p);
      assert p(rows[0]);
      assert rows == [rows[0]] + rows[1..];
    }
  }

  lemma {:induction false} FilterSorted<R>(rows: seq<R>, p: R -> bool, key: R -> int)
    requires Ordered(rows, key)
    ensures Ordered(Filter(rows, p), key)
  {
    if rows != [] {
      var tail := Filter(rows[1..], p);
      assert Ordered(rows[1..], key) by {
        forall a, b | 0 <= a < b < |rows[1..]| ensures key(rows[1..][a]) <= key(rows[1..][b]) {
          assert rows[1..][a] == rows[a + 1] && rows[1..][b] == rows[b + 1];
        }
      }
      FilterSorted(rows[1..], p, key);
      if p(rows[0]) {
        var r := Filter(rows, p);
        assert r == [rows[0]] + tail;
        forall j | 0 <= j < |tail| ensures key(rows[0]) <= key(tail[j]) {
          assert tail[j] in tail;
          FilterMembers(rows[1..], p, tail[j]);
          var m :| 0 <= m < |rows[1..]| && rows[1..][m] == tail[j];
          assert rows[m + 1] == tail[j];
        }
        forall i, j | 0 <= i < j < |r| ensures key(r[i]) <= key(r[j]) {
          assert r[j] == tail[j - 1];
          if i > 0 { assert r[i] == tail[i - 1]; }
        }
      } else {
        assert Filter(rows, p) == tail;
      }
    }
  }

  lemma {:induction false} FilterUnique<R>(rows: seq<R>, p: R -> bool, id: R -> string)
    requires UniqueIds(rows, id)
    ensures UniqueIds(Filter(rows, p), id)
  {
    if rows != [] {
      var tail := Filter(rows[1..], p);
      assert UniqueIds(rows[1..], id) by {
        forall a, b | 0 <= a < b < |rows[1..]| ensures id(rows[1..][a]) != id(rows[1..][b]) {
          assert rows[1..][a] == rows[a + 1] && rows[1..][b] == rows[b + 1];
        }
      }
      FilterUnique(rows[1..], p, id);
      if p(rows[0]) {
        var r := Filter(rows, p);
        assert r == [rows[0]] + tail;
        forall j | 0 <= j < |tail| ensures id(rows[0]) != id(tail[j]) {
          assert tail[j] in tail;
          FilterMembers(rows[1..], p, tail[j]);
          var m :| 0 <= m < |rows[1..]| && rows[1..][m] == tail[j];
          assert rows[m + 1] == tail[j];
        }
        forall i, j | 0 <= i < j < |r| ensures id(r[i]) != id(r[j]) {
          assert r[j] == tail[j - 1];
          if i > 0 { assert r[i] == tail[i - 1]; }
        }
      } else {
        assert Filter(rows, p) == tail;
      }
    }
  }

  /** Deleting the rows with key `k` removes exactly `k` from the map view. */
  lemma {:induction false} FilterKeyById<R>(rows: seq<R>, id: R -> string, k: string, p: R -> bool)
    requires forall r :: p(r) <==> id(r) != k
    ensures ById(Filter(rows, p), id) == ById(rows, id) - {k}
  {
    if rows != [] {
      FilterKeyById(rows[1..], id, k, p);
      var tail := Filter(rows[1..], p);
      if p(rows[0]) {
        assert Filter(rows, p) == [rows[0]] + tail;
        assert ([rows[0]] + tail)[1..] == tail;
        assert id(rows[0]) != k;
      } else {
        assert Filter(rows, p) == tail;
      }
    }
  }

  // ---------------------------------------------------------------------------
  // UPDATE ... WHERE key = k

  lemma {:induction false} ReplaceWhereShape<R>(rows: seq<R>, id: R -> string, k: string, f: R -> R)
    ensures |ReplaceWhere(rows, id, k, f)| == |rows|
    ensures forall i :: 0 <= i < |rows| ==>
      ReplaceWhere(rows, id, k, f)[i] == if id(rows[i]) == k then f(rows[i]) else rows[i]
  {
    if rows != [] {
      ReplaceWhereShape(rows[1..], id, k, f);
      var r := ReplaceWhere(rows, id, k, f);
      forall i | 0 <= i < |rows|
        ensures r[i] == if id(rows[i]) == k then f(rows[i]) else rows[i]
      {
        if i > 0 { assert r[i] == ReplaceWhere(rows[1..], id, k, f)[i - 1] && rows[i] == rows[1..][i - 1]; }
      }
    }
  }

  /** An UPDATE that keeps keys and timestamps keeps the table ordered and keyed. */
  lemma ReplaceWhereInvariant<R>(rows: seq<R>, id: R -> string, key: R -> int, k: string, f: R -> R)
    requires forall r :: id(f(r)) == id(r) && key(f(r)) == key(r)
    requires Ordered(rows, key) && UniqueIds(rows, id)
    ensures Ordered(ReplaceWhere(rows, id, k, f), key) && UniqueIds(ReplaceWhere(rows, id, k, f), id)
  {
    ReplaceWhereShape(rows, id, k, f);
    var r := ReplaceWhere(rows, id, k, f);
    assert forall i :: 0 <= i < |rows| ==> id(r[i]) == id(rows[i]) && key(r[i]) == key(rows[i]);
  }

  /** The map view after the UPDATE: only the value for `k` changes, to f of the old one. */
  lemma {:induction false} ReplaceWhereById<R>(rows: seq<R>, id: R -> string, k: string, f: R -> R)
    requires forall r :: id(f(r)) == id(r)
    ensures ById(ReplaceWhere(rows, id, k, f), id) ==
      if k in ById(rows, id) then ById(rows, id)[k := f(ById(rows, id)[k])] else ById(rows, id)
  {
    if rows != [] {
      ReplaceWhereById(rows[1..], id, k, f);
      var r := ReplaceWhere(rows, id, k, f);
      assert r[1..] == ReplaceWhere(rows[1..], id, k, f);
    }
  }
}
