/**
 * Integer cent arithmetic (src/utils/money.ts): `addCents`, a reduce from 0, and
 * `clampCents`, whose `min` defaults to 0 and whose `max` is applied last.
 * Amounts are unbounded integers here; the source's numbers are exact only below 2^53.
 */
module Money {
  import opened Wrappers

  /** The total of a list of amounts, element by element from the front: the reference for addCents. */
  function Sum(values: seq<int>): int {
    if values == [] then 0 else values[0] + Sum(values[1..])
  }

  /** `values.reduce((total, value) => total + value, acc)`: a fold from the left. */
  function Reduce(acc: int, values: seq<int>): (r: int)
    ensures r == acc + Sum(values)
    decreases values
  {
    if values == [] then acc else Reduce(acc + values[0], values[1..])
  }

  /** `addCents(values)`: the sum of the amounts, 0 for the empty list. */
  function AddCents(values: seq<int>): (r: int)
    ensures r == Sum(values)
    ensures values == [] ==> r == 0
  {
    Reduce(0, values)
  }

  lemma {:induction false} SumAppend(a: seq<int>, b: seq<int>)
    ensures Sum(a + b) == Sum(a) + Sum(b)
  {
    if a != [] {
      assert (a + b)[0] == a[0] && (a + b)[1..] == a[1..] + b;
      SumAppend(a[1..], b);
    } else {
      assert a + b == b;
    }
  }

  lemma {:induction false} SumNonNegative(values: seq<int>)
    requires forall i :: 0 <= i < |values| ==> values[i] >= 0
    ensures Sum(values) >= 0
  {
    if values != [] {
      SumNonNegative(values[1..]);
    }
  }

  lemma AddCentsExample()
    ensures AddCents([100, 200, 50]) == 350
  {
  }

  function Max(a: int, b: int): int { if a >= b then a else b }
  function Min(a: int, b: int): int { if a <= b then a else b }

  /**
   * `clampCents(value, { min, max })`.  The destructuring default makes `min` 0 whenever it is
   * left out, so the lower bound is always applied; the upper bound only when `max` is given,
   * and after the lower bound.
   */
  function ClampCents(value: int, min: Option<int>, max: Option<int>): (r: int)
    ensures r >= min.GetOr(0) || (max.Some? && r == max.value)
    ensures max.Some? ==> r <= max.value
    ensures min.GetOr(0) <= value && (max.None? || value <= max.value) ==> r == value
    ensures value < min.GetOr(0) && (max.None? || min.GetOr(0) <= max.value) ==> r == min.GetOr(0)
    ensures max.Some? && (value > max.value || min.GetOr(0) > max.value) ==> r == max.value
  {
    var lo := min.GetOr(0);
    var result := Max(value, lo);
    if max.Some? then Min(result, max.value) else result
  }

  lemma ClampCentsExamples()
    ensures ClampCents(-100, None, None) == 0
    ensures ClampCents(500, Some(100), Some(400)) == 400
  {
  }
}
