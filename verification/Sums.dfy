/** Sums over the rows of a table: the arithmetic behind every SELECT SUM(..) and COUNT(..). */
module Sums {

  datatype Option<+T> = None | Some(value: T)

  function Sum<R>(rows: seq<R>, weight: R -> nat): nat {
    if |rows| == 0 then 0 else Sum(rows[..|rows| - 1], weight) + weight(rows[|rows| - 1])
  }

  /** The first row that passes a test. */
  function First<R>(rows: seq<R>, test: R -> bool): (i: Option<nat>)
    ensures i.Some? ==> i.value < |rows| && test(rows[i.value]) && forall j :: 0 <= j < i.value ==> !test(rows[j])
    ensures i == None ==> forall j :: 0 <= j < |rows| ==> !test(rows[j])
  {
    if |rows| == 0 then None
    else
      var earlier := First(rows[..|rows| - 1], test);
      if earlier.Some? then earlier else if test(rows[|rows| - 1]) then Some(|rows| - 1) else None
  }

  lemma SumAppend<R>(rows: seq<R>, row: R, weight: R -> nat)
    ensures Sum(rows + [row], weight) == Sum(rows, weight) + weight(row)
  {
    assert (rows + [row])[..|rows|] == rows;
  }

  /** Replacing one row moves the sum by exactly the difference of the two weights. */
  lemma {:induction false} SumUpdate<R>(rows: seq<R>, i: nat, row: R, weight: R -> nat)
    requires i < |rows|
    ensures Sum(rows[i := row], weight) + weight(rows[i]) == Sum(rows, weight) + weight(row)
  {
    var last := |rows| - 1;
    if i == last {
      assert rows[i := row][..last] == rows[..last];
    } else {
      SumUpdate(rows[..last], i, row, weight);
      assert rows[i := row][..last] == rows[..last][i := row];
    }
  }

  lemma {:induction false} SumLe<R>(rows: seq<R>, low: R -> nat, high: R -> nat)
    requires forall i :: 0 <= i < |rows| ==> low(rows[i]) <= high(rows[i])
    ensures Sum(rows, low) <= Sum(rows, high)
  {
    if |rows| > 0 {
      SumLe(rows[..|rows| - 1], low, high);
    }
  }

  lemma SumEq<R>(rows: seq<R>, a: R -> nat, b: R -> nat)
    requires forall i :: 0 <= i < |rows| ==> a(rows[i]) == b(rows[i])
    ensures Sum(rows, a) == Sum(rows, b)
  {
    SumLe(rows, a, b);
    SumLe(rows, b, a);
  }

  /** Two weights that differ only at row i, where the second is zero. */
  lemma {:induction false} SumExcept<R>(rows: seq<R>, i: nat, all: R -> nat, rest: R -> nat)
    requires i < |rows| && rest(rows[i]) == 0
    requires forall j :: 0 <= j < |rows| && j != i ==> rest(rows[j]) == all(rows[j])
    ensures Sum(rows, all) == Sum(rows, rest) + all(rows[i])
  {
    var last := |rows| - 1;
    if i == last {
      SumEq(rows[..last], all, rest);
    } else {
      SumExcept(rows[..last], i, all, rest);
    }
  }

  lemma {:induction false} SumZero<R>(rows: seq<R>, weight: R -> nat)
    requires forall i :: 0 <= i < |rows| ==> weight(rows[i]) == 0
    ensures Sum(rows, weight) == 0
  {
    if |rows| > 0 {
      SumZero(rows[..|rows| - 1], weight);
    }
  }

  lemma {:induction false} SumMember<R>(rows: seq<R>, i: nat, weight: R -> nat)
    requires i < |rows|
    ensures weight(rows[i]) <= Sum(rows, weight)
  {
    if i < |rows| - 1 {
      SumMember(rows[..|rows| - 1], i, weight);
    }
  }

  /** Weights that add up row by row add up in all. */
  lemma {:induction false} SumSplits<R>(rows: seq<R>, all: R -> nat, one: R -> nat, other: R -> nat)
    requires forall i :: 0 <= i < |rows| ==> all(rows[i]) == one(rows[i]) + other(rows[i])
    ensures Sum(rows, all) == Sum(rows, one) + Sum(rows, other)
  {
    if |rows| > 0 {
      SumSplits(rows[..|rows| - 1], all, one, other);
    }
  }
}
