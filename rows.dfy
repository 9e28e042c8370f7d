/**
 * Table queries over rows kept in storage order: `findFirst` / `findUnique`
 * return the first matching row, `findMany` keeps every matching row in
 * order, `update` / `updateMany` rewrite every matching row in place.
 */
module Rows {
  import opened Wrappers

  function FindFirst<T>(rows: seq<T>, p: T -> bool): (r: Option<nat>)
    ensures r.Some? ==> r.value < |rows| && p(rows[r.value])
    ensures r.Some? ==> forall j :: 0 <= j < r.value ==> !p(rows[j])
    ensures r.None? ==> forall j :: 0 <= j < |rows| ==> !p(rows[j])
  {
    if rows == [] then None
    else if p(rows[0]) then Some(0)
    else match FindFirst(rows[1..], p)
      case Some(k) => Some(k + 1)
      case None => None
  }

  function FindMany<T>(rows: seq<T>, p: T -> bool): (r: seq<T>)
    ensures |r| <= |rows|
    ensures forall x :: x in r ==> x in rows && p(x)
    ensures forall j :: 0 <= j < |rows| && p(rows[j]) ==> rows[j] in r
  {
    if rows == [] then []
    else (if p(rows[0]) then [rows[0]] else []) + FindMany(rows[1..], p)
  }

  /** `findMany` keeps table order: the matches of a concatenation are the matches of each part, in turn. */
  lemma {:induction false} FindManyAppend<T>(a: seq<T>, b: seq<T>, p: T -> bool)
    ensures FindMany(a + b, p) == FindMany(a, p) + FindMany(b, p)
    ensures FindMany([], p) == [] && forall x :: FindMany([x], p) == if p(x) then [x] else []
  {
    if a == [] {
      assert a + b == b;
    } else {
      assert (a + b)[1..] == a[1..] + b;
      FindManyAppend(a[1..], b, p);
    }
  }

  function UpdateWhere<T>(rows: seq<T>, p: T -> bool, f: T -> T): (r: seq<T>)
    ensures |r| == |rows|
    ensures forall i :: 0 <= i < |rows| ==> r[i] == if p(rows[i]) then f(rows[i]) else rows[i]
  {
    seq(|rows|, i requires 0 <= i < |rows| => if p(rows[i]) then f(rows[i]) else rows[i])
  }

  /** When nothing matches, an update changes nothing. */
  lemma UpdateNoMatch<T>(rows: seq<T>, p: T -> bool, f: T -> T)
    requires forall i :: 0 <= i < |rows| ==> !p(rows[i])
    ensures UpdateWhere(rows, p, f) == rows
  {
  }
}
