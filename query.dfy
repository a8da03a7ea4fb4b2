/**
 * The small part of SQL the backend relies on, over tables held as
 * sequences of rows: fresh integer primary keys, `.first()` on an equality
 * filter, and `ORDER BY <key> DESC LIMIT n`.
 */
module Query {
  import opened Wrappers

  /** No value occurs twice: a primary key, or a UNIQUE column. */
  predicate Distinct<T(==)>(s: seq<T>) {
    forall i, j :: 0 <= i < j < |s| ==> s[i] != s[j]
  }

  /**
   * The key SQLite gives a new row of an integer-primary-key table: one more
   * than the largest key in use, or 1 for an empty table.
   */
  function FreshId(ids: seq<int>): (r: int)
    ensures r >= 1
    ensures forall i :: 0 <= i < |ids| ==> ids[i] < r
  {
    if ids == [] then 1
    else
      var rest := FreshId(ids[1..]);
      if ids[0] < rest then rest else ids[0] + 1
  }

  /** A fresh key keeps the keys of the extended table distinct. */
  lemma {:induction false} FreshIdKeepsDistinct(ids: seq<int>)
    requires Distinct(ids)
    ensures Distinct(ids + [FreshId(ids)])
  {
    var all := ids + [FreshId(ids)];
    forall i, j | 0 <= i < j < |all| ensures all[i] != all[j] {
      if j == |ids| {
        assert all[i] == ids[i];
      } else {
        assert all[i] == ids[i] && all[j] == ids[j];
      }
    }
  }

  /**
   * Index of the first row whose key equals `key` (`.filter(col == key).first()`),
   * or None when no row matches.
   */
  function FirstMatch(keys: seq<string>, key: string): (r: Option<nat>)
    ensures r.Some? ==> r.value < |keys| && keys[r.value] == key
    ensures r.Some? ==> forall i :: 0 <= i < r.value ==> keys[i] != key
    ensures r.None? <==> key !in keys
  {
    if keys == [] then None
    else if keys[0] == key then Some(0)
    else
      match FirstMatch(keys[1..], key)
      case None => None
      case Some(i) => Some(i + 1)
  }

  /** In a column whose values are unique, the first match is the only match. */
  lemma FirstMatchUnique(keys: seq<string>, key: string, j: nat)
    requires Distinct(keys)
    requires j < |keys| && keys[j] == key
    ensures FirstMatch(keys, key) == Some(j)
  {
  }

  /** `s` is ordered by `key`, largest first. */
  ghost predicate SortedDesc<T>(s: seq<T>, key: T -> int) {
    forall i, j :: 0 <= i < j < |s| ==> key(s[i]) >= key(s[j])
  }

  /** Inserts `x` into a sequence already ordered by `key` descending. */
  function InsertDesc<T>(x: T, s: seq<T>, key: T -> int): (r: seq<T>)
    requires SortedDesc(s, key)
    ensures SortedDesc(r, key)
    ensures multiset(r) == multiset(s) + multiset{x}
  {
    if s == [] then [x]
    else if key(x) >= key(s[0]) then [x] + s
    else
      var rest := InsertDesc(x, s[1..], key);
      assert s == [s[0]] + s[1..];
      assert forall k :: 0 <= k < |rest| ==> key(rest[k]) <= key(s[0]) by {
        forall k | 0 <= k < |rest| ensures key(rest[k]) <= key(s[0]) {
          assert rest[k] in multiset(rest);
          if rest[k] != x {
            assert rest[k] in multiset(s[1..]);
            var m :| 0 <= m < |s[1..]| && s[1..][m] == rest[k];
            assert s[m + 1] == rest[k];
          }
        }
      }
      [s[0]] + rest
  }

  /** `s` ordered by `key`, largest first (`ORDER BY key DESC`). */
  function SortDesc<T>(s: seq<T>, key: T -> int): (r: seq<T>)
    ensures SortedDesc(r, key)
    ensures multiset(r) == multiset(s)
  {
    if s == [] then []
    else
      assert s == [s[0]] + s[1..];
      InsertDesc(s[0], SortDesc(s[1..], key), key)
  }

  /**
   * SQL `LIMIT n`: the first `n` rows; a negative limit means no bound,
   * as in SQLite.
   */
  function Limit<T>(s: seq<T>, n: int): (r: seq<T>)
    ensures n >= 0 ==> |r| == if n < |s| then n else |s|
    ensures n < 0 ==> r == s
    ensures r <= s
  {
    if 0 <= n < |s| then s[..n] else s
  }

  /** Cutting a descending sequence keeps, above every dropped element, all kept ones. */
  lemma LimitKeepsLargest<T>(rows: seq<T>, sorted: seq<T>, key: T -> int, n: int)
    requires SortedDesc(sorted, key) && multiset(sorted) == multiset(rows)
    ensures forall i, k :: 0 <= i < |rows| && rows[i] !in Limit(sorted, n) && 0 <= k < |Limit(sorted, n)|
              ==> key(rows[i]) <= key(Limit(sorted, n)[k])
  {
    var r := Limit(sorted, n);
    forall i, k | 0 <= i < |rows| && rows[i] !in r && 0 <= k < |r|
      ensures key(rows[i]) <= key(r[k])
    {
      assert rows[i] in multiset(rows);
      assert rows[i] in sorted;
      var m :| 0 <= m < |sorted| && sorted[m] == rows[i];
      assert r[k] == sorted[k];
    }
  }

  /** A prefix of a sequence holds no more of any element than the sequence. */
  lemma PrefixMultiset<T>(s: seq<T>, r: seq<T>)
    requires r <= s
    ensures multiset(r) <= multiset(s)
  {
    assert s == r + s[|r|..];
  }

  /**
   * `ORDER BY key DESC LIMIT n`: the `n` rows with the largest keys, largest
   * first. Rows that are left out have keys no larger than any kept row.
   */
  function NewestFirst<T>(rows: seq<T>, key: T -> int, n: int): (r: seq<T>)
    ensures n >= 0 ==> |r| == if n < |rows| then n else |rows|
    ensures n < 0 ==> |r| == |rows|
    ensures SortedDesc(r, key)
    ensures multiset(r) <= multiset(rows)
    ensures forall i, k :: 0 <= i < |rows| && rows[i] !in r && 0 <= k < |r| ==> key(rows[i]) <= key(r[k])
  {
    var sorted := SortDesc(rows, key);
    assert |sorted| == |multiset(sorted)| == |rows|;
    LimitKeepsLargest(rows, sorted, key, n);
    PrefixMultiset(sorted, Limit(sorted, n));
    Limit(sorted, n)
  }
}
