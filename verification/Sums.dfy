/** Column totals over a table, and how they react to one row being written.
    Every quantity the services keep twice is compared through such a total. */
module Sums {

  function Sum<T>(rows: seq<T>, weight: T -> int): int {
    if rows == [] then 0
    else Sum(rows[..|rows| - 1], weight) + weight(rows[|rows| - 1])
  }

  lemma SumAppend<T>(rows: seq<T>, row: T, weight: T -> int)
    ensures Sum(rows + [row], weight) == Sum(rows, weight) + weight(row)
  {
    assert (rows + [row])[..|rows|] == rows;
  }

  lemma {:induction false} SumConcat<T>(rows: seq<T>, more: seq<T>, weight: T -> int)
    ensures Sum(rows + more, weight) == Sum(rows, weight) + Sum(more, weight)
  {
    if more == [] {
      assert rows + more == rows;
    } else {
      var init, last := more[..|more| - 1], more[|more| - 1];
      assert rows + more == (rows + init) + [last];
      SumAppend(rows + init, last, weight);
      SumConcat(rows, init, weight);
    }
  }

  lemma {:induction false} SumUpdate<T>(rows: seq<T>, i: nat, row: T, weight: T -> int)
    requires i < |rows|
    ensures Sum(rows[i := row], weight) == Sum(rows, weight) - weight(rows[i]) + weight(row)
  {
    var last := |rows| - 1;
    if i == last {
      assert rows[i := row][..last] == rows[..last];
    } else {
      assert rows[i := row][..last] == rows[..last][i := row];
      SumUpdate(rows[..last], i, row, weight);
    }
  }

  /** A total is bounded row by row; the two rows may be of different tables as long as they pair up. */
  lemma {:induction false} SumLeq<S, T>(rows: seq<S>, weight: S -> int, others: seq<T>, other: T -> int)
    requires |rows| == |others|
    requires forall i :: 0 <= i < |rows| ==> weight(rows[i]) <= other(others[i])
    ensures Sum(rows, weight) <= Sum(others, other)
  {
    if rows != [] {
      SumLeq(rows[..|rows| - 1], weight, others[..|others| - 1], other);
    }
  }

  lemma {:induction false} SumEqual<S, T>(rows: seq<S>, weight: S -> int, others: seq<T>, other: T -> int)
    requires |rows| == |others|
    requires forall i :: 0 <= i < |rows| ==> weight(rows[i]) == other(others[i])
    ensures Sum(rows, weight) == Sum(others, other)
  {
    SumLeq(rows, weight, others, other);
    SumLeq(others, other, rows, weight);
  }

  lemma {:induction false} SumZero<T>(rows: seq<T>, weight: T -> int)
    requires forall i :: 0 <= i < |rows| ==> weight(rows[i]) == 0
    ensures Sum(rows, weight) == 0
  {
    if rows != [] {
      SumZero(rows[..|rows| - 1], weight);
    }
  }

  /** No row weighs more than the whole when no row weighs less than nothing. */
  lemma {:induction false} SumBounds<T>(rows: seq<T>, weight: T -> int, i: nat)
    requires i < |rows|
    requires forall j :: 0 <= j < |rows| ==> weight(rows[j]) >= 0
    ensures 0 <= weight(rows[i]) <= Sum(rows, weight)
  {
    var init := rows[..|rows| - 1];
    if i < |init| {
      SumBounds(init, weight, i);
    } else {
      SumNonNegative(init, weight);
    }
  }

  lemma {:induction false} SumNonNegative<T>(rows: seq<T>, weight: T -> int)
    requires forall j :: 0 <= j < |rows| ==> weight(rows[j]) >= 0
    ensures Sum(rows, weight) >= 0
  {
    if rows != [] {
      SumNonNegative(rows[..|rows| - 1], weight);
    }
  }

  lemma {:induction false} SumSplit<T>(rows: seq<T>, whole: T -> int, part: T -> int, rest: T -> int)
    requires forall j :: 0 <= j < |rows| ==> whole(rows[j]) == part(rows[j]) + rest(rows[j])
    ensures Sum(rows, whole) == Sum(rows, part) + Sum(rows, rest)
  {
    if rows != [] {
      SumSplit(rows[..|rows| - 1], whole, part, rest);
    }
  }
}
