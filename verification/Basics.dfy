/** Notions shared by every part of the model: optional values, time, and query results. */
module Basics {

  datatype Option<+T> = None | Some(value: T)

  /** A UUID, by its value.  Lower-case hexadecimal strings of equal length sort as their values do. */
  type Id = nat

  /** Instants and durations, in nanoseconds (the finest clock of the three SDK languages). */
  type Time = int

  const SECOND: int := 1_000_000_000
  const MINUTE: int := 60 * SECOND
  const DAY: int := 86_400 * SECOND

  function Max(x: int, y: int): int {
    if x >= y then x else y
  }

  /** The result of a query: every element of `s` once, in an order the database chooses. */
  ghost predicate Listing<T(!new)>(rows: seq<T>, s: set<T>) {
    && (forall x :: x in rows <==> x in s)
    && (forall i, j :: 0 <= i < j < |rows| ==> rows[i] != rows[j])
  }

  lemma {:induction false} ListingSize<T(!new)>(rows: seq<T>, s: set<T>)
    requires Listing(rows, s)
    ensures |rows| == |s|
  {
    if rows == [] {
      assert s == {};
    } else {
      var last := rows[|rows| - 1];
      assert forall x :: x in rows[..|rows| - 1] ==> x in rows;
      assert forall x :: x in s - {last} ==> x in rows[..|rows| - 1];
      ListingSize(rows[..|rows| - 1], s - {last});
    }
  }
}
