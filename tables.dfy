/** Sequence helpers shared by the three table services: a table is a
    sequence of rows in insertion order. */
module Tables {
  import opened Wrappers

  /** The index of the first element satisfying `p`, if any. */
  function FindFirst<T>(rows: seq<T>, p: T -> bool): (r: Option<nat>)
    ensures r.None? <==> forall i :: 0 <= i < |rows| ==> !p(rows[i])
    ensures r.Some? ==> r.value < |rows| && p(rows[r.value])
    ensures r.Some? ==> forall i :: 0 <= i < r.value ==> !p(rows[i])
  {
    if |rows| == 0 then None
    else if p(rows[0]) then Some(0)
    else match FindFirst(rows[1..], p)
      case None => None
      case Some(i) => Some(i + 1)
  }

  /** The rows not satisfying `p`, in their original order. */
  function RemoveWhere<T>(rows: seq<T>, p: T -> bool): (r: seq<T>)
    ensures |r| <= |rows|
    ensures forall i :: 0 <= i < |r| ==> r[i] in rows && !p(r[i])
    ensures forall i :: 0 <= i < |rows| && !p(rows[i]) ==> rows[i] in r
    ensures (forall i :: 0 <= i < |rows| ==> !p(rows[i])) ==> r == rows
  {
    if |rows| == 0 then []
    else if p(rows[0]) then RemoveWhere(rows[1..], p)
    else [rows[0]] + RemoveWhere(rows[1..], p)
  }

  /** `key` strictly increases along `rows` (ids in insertion order). */
  predicate IncreasingBy<T>(rows: seq<T>, key: T -> int) {
    forall i, j :: 0 <= i < j < |rows| ==> key(rows[i]) < key(rows[j])
  }

  /** A lower bound on every row's key is one on every remaining row's key. */
  lemma {:induction false} RemoveWhereAbove<T>(rows: seq<T>, p: T -> bool, key: T -> int, lo: int)
    requires forall i :: 0 <= i < |rows| ==> lo < key(rows[i])
    ensures forall i :: 0 <= i < |RemoveWhere(rows, p)| ==> lo < key(RemoveWhere(rows, p)[i])
  {
    if |rows| > 0 {
      RemoveWhereAbove(rows[1..], p, key, lo);
    }
  }

  /** A row below every key of an increasing sequence can go in front. */
  lemma ConsIncreasing<T>(x: T, rest: seq<T>, key: T -> int)
    requires IncreasingBy(rest, key)
    requires forall i :: 0 <= i < |rest| ==> key(x) < key(rest[i])
    ensures IncreasingBy([x] + rest, key)
  {
    var r := [x] + rest;
    forall i, j | 0 <= i < j < |r|
      ensures key(r[i]) < key(r[j])
    {
      assert r[j] == rest[j - 1];
      if i > 0 {
        assert r[i] == rest[i - 1];
      }
    }
  }

  lemma {:induction false} RemoveWhereIncreasing<T>(rows: seq<T>, p: T -> bool, key: T -> int)
    requires IncreasingBy(rows, key)
    ensures IncreasingBy(RemoveWhere(rows, p), key)
  {
    if |rows| > 0 {
      var rest := RemoveWhere(rows[1..], p);
      RemoveWhereIncreasing(rows[1..], p, key);
      RemoveWhereAbove(rows[1..], p, key, key(rows[0]));
      if !p(rows[0]) {
        ConsIncreasing(rows[0], rest, key);
      }
    }
  }

  /** A query ordered newest first, collected row by row: the rows in
      reverse insertion order. */
  method NewestFirst<T>(rows: seq<T>) returns (r: seq<T>)
    ensures |r| == |rows|
    ensures forall i :: 0 <= i < |r| ==> r[i] == rows[|rows| - 1 - i]
  {
    r := [];
    var k := |rows|;
    while k > 0
      invariant 0 <= k <= |rows|
      invariant |r| == |rows| - k
      invariant forall i :: 0 <= i < |r| ==> r[i] == rows[|rows| - 1 - i]
    {
      r := r + [rows[k - 1]];
      k := k - 1;
    }
  }
}
