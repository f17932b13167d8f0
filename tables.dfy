/** Tables with a UNIQUE integer column, stored as sequences of rows in insertion order.
    `Lookup` is the `WHERE key = $1` that returns the first matching row, and `Upsert`
    is Postgres' `INSERT ... ON CONFLICT (key) DO UPDATE`. */
module Tables {
  import opened Common

  /** The UNIQUE constraint on the column `key`. */
  ghost predicate KeyUnique<T>(rows: seq<T>, key: T -> int) {
    forall i, j :: 0 <= i < j < |rows| ==> key(rows[i]) != key(rows[j])
  }

  /** The position of the first row whose key is `k`. */
  function IndexOfKey<T>(rows: seq<T>, key: T -> int, k: int): (r: Option<nat>)
    ensures r.Some? ==> r.value < |rows| && key(rows[r.value]) == k
    ensures r.Some? ==> forall i :: 0 <= i < r.value ==> key(rows[i]) != k
    ensures r.None? ==> forall i :: 0 <= i < |rows| ==> key(rows[i]) != k
  {
    if |rows| == 0 then None
    else if key(rows[0]) == k then Some(0)
    else match IndexOfKey(rows[1..], key, k)
      case None => None
      case Some(i) => Some(i + 1)
  }

  function Lookup<T>(rows: seq<T>, key: T -> int, k: int): (r: Option<T>)
    ensures r.Some? ==> r.value in rows && key(r.value) == k
    ensures r.None? <==> forall i :: 0 <= i < |rows| ==> key(rows[i]) != k
  {
    match IndexOfKey(rows, key, k)
    case None => None
    case Some(i) => Some(rows[i])
  }

  /** A first match is unique: any row with key `k` that no earlier row shares is the one
      IndexOfKey finds. */
  lemma FirstMatch<T>(rows: seq<T>, key: T -> int, k: int, j: nat)
    requires j < |rows| && key(rows[j]) == k
    requires forall i :: 0 <= i < j ==> key(rows[i]) != k
    ensures IndexOfKey(rows, key, k) == Some(j)
  {
  }

  /** `INSERT ... ON CONFLICT (key) DO UPDATE`: the row replaces the one holding its key, or is
      appended when there is none. */
  function Upsert<T>(rows: seq<T>, key: T -> int, row: T): (r: seq<T>)
    ensures |r| == if IndexOfKey(rows, key, key(row)).Some? then |rows| else |rows| + 1
    ensures row in r
  {
    match IndexOfKey(rows, key, key(row))
    case Some(i) =>
      assert rows[i := row][i] == row;
      rows[i := row]
    case None => rows + [row]
  }

  /** After an upsert the row is what its key finds, and every other key finds what it found
      before. */
  lemma UpsertLookup<T>(rows: seq<T>, key: T -> int, row: T, k: int)
    ensures Lookup(Upsert(rows, key, row), key, k)
         == if k == key(row) then Some(row) else Lookup(rows, key, k)
  {
    var r := Upsert(rows, key, row);
    match IndexOfKey(rows, key, key(row))
    case Some(i) =>
      if k == key(row) {
        FirstMatch(r, key, k, i);
      } else {
        match IndexOfKey(rows, key, k)
        case Some(j) => FirstMatch(r, key, k, j);
        case None =>
      }
    case None =>
      if k == key(row) {
        FirstMatch(r, key, k, |rows|);
      } else {
        match IndexOfKey(rows, key, k)
        case Some(j) => FirstMatch(r, key, k, j);
        case None =>
      }
  }

  /** An upsert keeps the key column unique: a resubmission never adds a second row. */
  lemma UpsertKeepsKeyUnique<T>(rows: seq<T>, key: T -> int, row: T)
    requires KeyUnique(rows, key)
    ensures KeyUnique(Upsert(rows, key, row), key)
  {
  }
}

/** The orderings the queries ask for (`ORDER BY ... DESC`), the grouping of repeated values
    (`GROUP BY`) and `LIMIT`. */
module Ordering {

  /** Nonincreasing in `key`, as `ORDER BY key DESC` promises. */
  ghost predicate SortedDesc<T>(s: seq<T>, key: T -> int) {
    forall i, j :: 0 <= i < j < |s| ==> key(s[i]) >= key(s[j])
  }

  function InsertDesc<T>(x: T, s: seq<T>, key: T -> int): (r: seq<T>)
    requires SortedDesc(s, key)
    ensures multiset(r) == multiset(s) + multiset{x}
    ensures SortedDesc(r, key)
    ensures |r| == |s| + 1
  {
    if |s| == 0 || key(x) >= key(s[0]) then [x] + s
    else
      var rest := InsertDesc(x, s[1..], key);
      assert s == [s[0]] + s[1..];
      assert multiset([s[0]] + rest) == multiset(s) + multiset{x};
      forall k | 0 <= k < |rest|
        ensures key(s[0]) >= key(rest[k])
      {
        assert rest[k] in multiset(rest);
        if rest[k] != x {
          assert rest[k] in multiset(s[1..]);
          var j :| 0 <= j < |s[1..]| && s[1..][j] == rest[k];
          assert s[1 + j] == rest[k];
        }
      }
      [s[0]] + rest
  }

  /** The rows of `s` reordered by `key`, largest first; ties keep no particular order. */
  function SortDesc<T>(s: seq<T>, key: T -> int): (r: seq<T>)
    ensures multiset(r) == multiset(s)
    ensures SortedDesc(r, key)
    ensures |r| == |s|
  {
    if |s| == 0 then []
    else
      assert s == [s[0]] + s[1..];
      InsertDesc(s[0], SortDesc(s[1..], key), key)
  }

  /** Every row of a permutation is a row of the original. */
  lemma InPermutation<T>(r: seq<T>, s: seq<T>, k: nat)
    requires multiset(r) == multiset(s) && k < |r|
    ensures r[k] in s
  {
    assert r[k] in multiset(r);
  }

  /** Every row of the original sits at some position of a permutation. */
  lemma PositionInPermutation<T>(r: seq<T>, s: seq<T>, x: T) returns (k: nat)
    requires multiset(r) == multiset(s) && x in s
    ensures k < |r| && r[k] == x
  {
    assert x in multiset(s);
    assert x in r;
    k :| 0 <= k < |r| && r[k] == x;
  }

  /** `LIMIT n`. */
  function Take<T>(s: seq<T>, n: nat): (r: seq<T>)
    ensures |r| <= n && |r| <= |s|
    ensures |r| == if |s| < n then |s| else n
    ensures forall k :: 0 <= k < |r| ==> r[k] == s[k]
  {
    if |s| <= n then s else s[..n]
  }

  predicate Distinct<T(==)>(s: seq<T>) {
    forall i, j :: 0 <= i < j < |s| ==> s[i] != s[j]
  }

  /** The distinct values of `s` in order of first appearance. */
  function Dedup<T(==)>(s: seq<T>): (r: seq<T>)
    ensures Distinct(r)
    ensures forall k :: 0 <= k < |r| ==> r[k] in s
    ensures forall k :: 0 <= k < |s| ==> s[k] in r
  {
    if |s| == 0 then []
    else
      var d := Dedup(s[..|s| - 1]);
      assert s == s[..|s| - 1] + [s[|s| - 1]];
      if s[|s| - 1] in d then d else d + [s[|s| - 1]]
  }

  /** Appending a value that is already present adds no group. */
  lemma DedupAppendPresent<T>(s: seq<T>, x: T)
    requires x in s
    ensures Dedup(s + [x]) == Dedup(s)
  {
    assert (s + [x])[..|s + [x]| - 1] == s;
  }
}
