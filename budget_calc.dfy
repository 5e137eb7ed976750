/**
 * The budget snapshot calculator (src/domain/budget.ts): carry-in from the previous month,
 * the effective limit (base limit plus carry-in), the amount still available, and a status
 * judged against the effective limit.  The approaching ratio is an exact real number.
 */
module BudgetCalc {
  import opened Wrappers
  import opened Records

  const ApproachingRatioDefault: real := 0.8

  /**
   * `computeCarryInCents`: nothing unless this budget carries over and a previous budget is
   * given; then the previous month's unspent amount (a missing previous total counts as 0),
   * never less than 0.
   */
  function CarryIn(budget: Budget, previousBudget: Option<Budget>, previousActualCents: Option<int>): (c: int)
    ensures c >= 0
    ensures !budget.carryOverPrev || previousBudget.None? ==> c == 0
    ensures budget.carryOverPrev && previousBudget.Some? ==>
      var leftover := previousBudget.value.limitCents - previousActualCents.GetOr(0);
      c >= leftover && (c == leftover || c == 0)
  {
    if !budget.carryOverPrev then 0
    else if previousBudget.None? then 0
    else
      var leftover := previousBudget.value.limitCents - previousActualCents.GetOr(0);
      if leftover > 0 then leftover else 0
  }

  /** `resolveStatus`: a zero limit is over as soon as anything is spent; otherwise spent / limit decides. */
  function ResolveStatus(limitCents: int, actualCents: int, approachingRatio: real): (s: Status)
    ensures limitCents == 0 ==> s != Approaching && (s == Over <==> actualCents > 0)
    ensures limitCents > 0 ==> (s == Over <==> actualCents >= limitCents)
    ensures limitCents > 0 ==>
      (s == Approaching <==> actualCents < limitCents && actualCents as real >= approachingRatio * limitCents as real)
    ensures limitCents < 0 ==> (s == Over <==> actualCents <= limitCents)
  {
    if limitCents == 0 then (if actualCents > 0 then Over else Ok)
    else
      var ratio := actualCents as real / limitCents as real;
      RatioFacts(actualCents as real, limitCents as real, approachingRatio);
      if ratio >= 1.0 then Over
      else if ratio >= approachingRatio then Approaching
      else Ok
  }

  /** How a quotient compares with a bound, for a positive and for a negative divisor. */
  lemma RatioFacts(a: real, l: real, k: real)
    requires l != 0.0
    ensures l > 0.0 ==> (a / l >= 1.0 <==> a >= l) && (a / l >= k <==> a >= k * l)
    ensures l < 0.0 ==> (a / l >= 1.0 <==> a <= l)
  {
    var q := a / l;
    assert a == q * l;
    if l > 0.0 {
      assert q >= k <==> q * l >= k * l;
    } else {
      assert q >= 1.0 <==> q * l <= l;
    }
  }

  /** `calculateBudgetSnapshot`; `approachingRatio` left undefined means 0.8. */
  function CalculateBudgetSnapshot(
    budget: Budget, actualCents: int, previousBudget: Option<Budget>, previousActualCents: Option<int>,
    approachingRatio: Option<real>): (s: BudgetSnapshot)
    ensures s.categoryId == budget.categoryId && s.month == budget.month
    ensures s.limitCents == budget.limitCents && s.actualCents == actualCents
    ensures s.carryInCents == CarryIn(budget, previousBudget, previousActualCents)
    ensures s.availableCents == s.limitCents + s.carryInCents - s.actualCents
    ensures s.status == ResolveStatus(s.limitCents + s.carryInCents, actualCents, approachingRatio.GetOr(ApproachingRatioDefault))
  {
    var carryInCents := CarryIn(budget, previousBudget, previousActualCents);
    var effectiveLimit := budget.limitCents + carryInCents;
    BudgetSnapshot(
      budget.categoryId, budget.month, budget.limitCents, actualCents, carryInCents,
      effectiveLimit - actualCents,
      ResolveStatus(effectiveLimit, actualCents, approachingRatio.GetOr(ApproachingRatioDefault)))
  }

  function Rank(s: Status): nat {
    match s
    case Ok => 0
    case Approaching => 1
    case Over => 2
  }

  /** With a fixed non-negative limit and ratio, spending more never moves the status back. */
  lemma StatusMonotone(limitCents: int, a1: int, a2: int, approachingRatio: real)
    requires limitCents >= 0 && a1 <= a2
    ensures Rank(ResolveStatus(limitCents, a1, approachingRatio)) <= Rank(ResolveStatus(limitCents, a2, approachingRatio))
  {
    if limitCents > 0 {
      assert a1 as real <= a2 as real;
    }
  }

  /**
   * For a budget with a non-negative base limit, the status reads off the available amount:
   * over exactly when it is negative, or zero while the effective limit is positive.
   */
  lemma SnapshotStatusFromAvailable(
    budget: Budget, actualCents: int, previousBudget: Option<Budget>, previousActualCents: Option<int>,
    approachingRatio: Option<real>)
    requires budget.limitCents >= 0
    ensures var s := CalculateBudgetSnapshot(budget, actualCents, previousBudget, previousActualCents, approachingRatio);
      s.status == Over <==> s.availableCents < 0 || (s.availableCents == 0 && s.limitCents + s.carryInCents > 0)
    ensures var s := CalculateBudgetSnapshot(budget, actualCents, previousBudget, previousActualCents, approachingRatio);
      s.status == Approaching ==> s.availableCents > 0
  {
  }

  /** The worked cases of the calculator: a 500.00 budget, and a 600.00 previous budget carried over. */
  lemma WorkedCases()
    ensures var b := Budget("b1", "2024-05", "cat-1", 50000, false, "2024-05-01T00:00:00.000Z", "2024-05-01T00:00:00.000Z");
      var s1 := CalculateBudgetSnapshot(b, 20000, None, None, None);
      var s2 := CalculateBudgetSnapshot(b, 42000, None, None, None);
      var s3 := CalculateBudgetSnapshot(b, 52000, None, None, None);
      s1.status == Ok && s1.availableCents == 30000 &&
      s2.status == Approaching && s2.availableCents == 8000 &&
      s3.status == Over && s3.availableCents == -2000
    ensures var b := Budget("b1", "2024-05", "cat-1", 50000, true, "2024-05-01T00:00:00.000Z", "2024-05-01T00:00:00.000Z");
      var p := Budget("b0", "2024-04", "cat-1", 60000, true, "2024-05-01T00:00:00.000Z", "2024-05-01T00:00:00.000Z");
      var s := CalculateBudgetSnapshot(b, 30000, Some(p), Some(40000), None);
      var t := CalculateBudgetSnapshot(b, 10000, None, Some(5000), None);
      s.carryInCents == 20000 && s.availableCents == 40000 && s.status == Ok && t.carryInCents == 0
  {
  }
}
