/**
 * The reports of src/services/report.ts over the mock database: budget against actual spend
 * for a month, the month's spend per category (largest first), and the trend of monthly
 * totals over `monthsBack + 1` consecutive months ending at a start month.
 *
 * The ambient "today" of getTrendOverTime is a parameter: the current timestamp, whose
 * month key is the default start.
 */
module ReportService {
  import opened Wrappers
  import opened Records
  import opened Dates
  import opened Money
  import opened Sorting
  import opened MockDatabase
  import opened Totals
  import opened BudgetService

  // ------------------------------------------------------------ getBudgetVsActual

  /** getBudgetVsActual(month) is getBudgetSnapshots(month). */
  method GetBudgetVsActual(db: Database, month: string) returns (r: Outcome<seq<BudgetSnapshot>>)
    requires db.Valid()
    ensures r == BudgetSnapshotsResult(db.budgets.data, db.expenses.data, month)
  {
    r := GetBudgetSnapshots(db, month);
  }

  // ------------------------------------------------------------ getSpendByCategory

  datatype SpendRow = SpendRow(categoryId: string, month: string, totalCents: int)

  /** `expenses.where('month').equals(month)`. */
  function MonthExpenses(es: seq<Expense>, month: string): seq<Expense> {
    Filter(es, WhereEquals(ExpenseMonth, month))
  }

  /** `Array.from(totals.entries()).map(([categoryId, totalCents]) => ({ categoryId, month, totalCents }))`. */
  function Rows(t: seq<Entry>, month: string): (r: seq<SpendRow>)
    ensures |r| == |t| && forall i :: 0 <= i < |t| ==> r[i] == SpendRow(t[i].key, month, t[i].total)
  {
    seq(|t|, i requires 0 <= i < |t| => SpendRow(t[i].key, month, t[i].total))
  }

  /** The comparator `b.totalCents - a.totalCents`: `a` may stay before `b` when its total is not smaller. */
  function SpendOrder(): (le: (SpendRow, SpendRow) -> bool)
    ensures forall a, b :: le(a, b) == (a.totalCents >= b.totalCents)
  {
    (a: SpendRow, b: SpendRow) => a.totalCents >= b.totalCents
  }

  lemma SpendOrderIsTotalPreorder()
    ensures TotalPreorder(SpendOrder())
  {
  }

  /** The rows before sorting: the month's categories in order of first appearance, with their totals. */
  function UnsortedRows(es: seq<Expense>, month: string): seq<SpendRow> {
    Rows(TotalsOf(MonthExpenses(es, month)), month)
  }

  function SpendByCategoryRows(es: seq<Expense>, month: string): (r: seq<SpendRow>)
    ensures |r| == |CategoriesInOrder(MonthExpenses(es, month))|
    ensures multiset(r) == multiset(UnsortedRows(es, month))
  {
    SortBy(UnsortedRows(es, month), SpendOrder())
  }

  /** The rows are ordered by total, largest first. */
  lemma SpendSorted(es: seq<Expense>, month: string, i: int, j: int)
    requires 0 <= i < j < |SpendByCategoryRows(es, month)|
    ensures var r := SpendByCategoryRows(es, month); r[i].totalCents >= r[j].totalCents
  {
    SpendOrderIsTotalPreorder();
    SortBySorted(UnsortedRows(es, month), SpendOrder());
    var r := SpendByCategoryRows(es, month);
    assert SpendOrder()(r[i], r[j]);
  }

  /** A row of the report is a row of the unsorted totals. */
  lemma SpendRowIsUnsortedRow(es: seq<Expense>, month: string, i: int) returns (k: int)
    requires 0 <= i < |SpendByCategoryRows(es, month)|
    ensures var d := CategoriesInOrder(MonthExpenses(es, month));
      0 <= k < |d| && SpendByCategoryRows(es, month)[i] == UnsortedRows(es, month)[k] &&
      UnsortedRows(es, month)[k] == SpendRow(d[k], month, CategoryTotal(MonthExpenses(es, month), d[k]))
  {
    var r := SpendByCategoryRows(es, month);
    var u := UnsortedRows(es, month);
    assert r[i] in multiset(u);
    k :| 0 <= k < |u| && u[k] == r[i];
  }

  /** Each row is for the queried month, totals its category's expenses of that month, and names a category spent on. */
  lemma SpendRowFacts(es: seq<Expense>, month: string, i: int)
    requires 0 <= i < |SpendByCategoryRows(es, month)|
    ensures var row := SpendByCategoryRows(es, month)[i];
      && row.month == month
      && row.totalCents == CategoryTotal(MonthExpenses(es, month), row.categoryId)
      && exists j :: 0 <= j < |es| && es[j].month == month && es[j].categoryId == row.categoryId
  {
    var me := MonthExpenses(es, month);
    var d := CategoriesInOrder(me);
    var k := SpendRowIsUnsortedRow(es, month, i);
    CategoriesInOrderMembers(me, d[k]);
    var m :| 0 <= m < |me| && me[m].categoryId == d[k];
    assert me[m] in es && me[m].month == month;
    var j :| 0 <= j < |es| && es[j] == me[m];
  }

  /** Every category with an expense in the month has a row. */
  lemma SpendCovers(es: seq<Expense>, month: string, j: int)
    requires 0 <= j < |es| && es[j].month == month
    ensures exists i :: (0 <= i < |SpendByCategoryRows(es, month)| &&
      SpendByCategoryRows(es, month)[i].categoryId == es[j].categoryId)
  {
    var me := MonthExpenses(es, month);
    var d := CategoriesInOrder(me);
    FilterMembers(es, WhereEquals(ExpenseMonth, month), es[j]);
    var m :| 0 <= m < |me| && me[m] == es[j];
    CategoriesInOrderMembers(me, es[j].categoryId);
    var k :| 0 <= k < |d| && d[k] == es[j].categoryId;
    var u := UnsortedRows(es, month);
    var r := SpendByCategoryRows(es, month);
    assert u[k] in multiset(r);
    var i :| 0 <= i < |r| && r[i] == u[k];
  }

  lemma {:induction false} DistinctMultiplicity<T>(s: seq<T>, x: T)
    requires forall i, j :: 0 <= i < j < |s| ==> s[i] != s[j]
    ensures multiset(s)[x] <= 1
  {
    if s != [] {
      assert s == [s[0]] + s[1..];
      DistinctMultiplicity(s[1..], x);
      if x == s[0] {
        assert x !in s[1..];
      }
    }
  }

  lemma RepeatMultiplicity<T>(s: seq<T>, i: int, j: int)
    requires 0 <= i < j < |s| && s[i] == s[j]
    ensures multiset(s)[s[i]] >= 2
  {
    assert s == s[..j] + s[j..];
    assert s[i] in s[..j];
    assert s[j] in s[j..];
  }

  /** No category has two rows. */
  lemma SpendOneRowPerCategory(es: seq<Expense>, month: string, i: int, j: int)
    requires 0 <= i < j < |SpendByCategoryRows(es, month)|
    ensures SpendByCategoryRows(es, month)[i].categoryId != SpendByCategoryRows(es, month)[j].categoryId
  {
    var r := SpendByCategoryRows(es, month);
    var u := UnsortedRows(es, month);
    var a := SpendRowIsUnsortedRow(es, month, i);
    var b := SpendRowIsUnsortedRow(es, month, j);
    if r[i].categoryId == r[j].categoryId {
      assert a == b;
      RepeatMultiplicity(r, i, j);
      DistinctMultiplicity(u, r[i]);
      assert false;
    }
  }

  method GetSpendByCategory(db: Database, month: string) returns (rows: seq<SpendRow>)
    requires db.Valid()
    ensures rows == SpendByCategoryRows(db.expenses.data, month)
  {
    var es := db.expenses.Select(WhereEquals(ExpenseMonth, month));
    var totals := AccumulateTotals(es);
    rows := SortBy(Rows(totals, month), SpendOrder());
  }

  // ------------------------------------------------------------ getTrendOverTime

  datatype TrendPoint = TrendPoint(month: string, totalCents: int)

  /** `monthsBack ?? 11`, and the number of times the loop `for (i = 1; i <= monthsBack; …)` runs. */
  function MonthsCount(monthsBack: Option<int>): nat {
    var n := monthsBack.GetOr(11);
    if n < 0 then 0 else n
  }

  /**
   * The months loop, for any step: `start`, then `n` more entries, each the step applied to
   * the entry before it; the first error the step throws ends it.
   */
  function Chain(step: string -> Outcome<string>, start: string, n: nat): (r: Outcome<seq<string>>)
    ensures r.Success? ==> |r.value| == n + 1 && r.value[0] == start
  {
    if n == 0 then Success([start])
    else
      var prev :- Chain(step, start, n - 1);
      var m :- step(prev[n - 1]);
      Success(prev + [m])
  }

  /** The list `months`: the start month, then each one the month before the previous entry. */
  function MonthsBack(start: string, n: nat): (r: Outcome<seq<string>>)
    ensures r.Success? ==> |r.value| == n + 1 && r.value[0] == start
  {
    Chain(GetPreviousMonthKey, start, n)
  }

  /** Once the chain throws, it throws the same error however many more entries are asked for. */
  lemma {:induction false} ChainFailureSticks(step: string -> Outcome<string>, start: string, i: nat, n: nat)
    requires i <= n && Chain(step, start, i).Failure?
    ensures Chain(step, start, n) == Chain(step, start, i)
  {
    if i < n {
      ChainFailureSticks(step, start, i, n - 1);
    }
  }

  /** The loop `for (i = 1; i <= count; i += 1) months.push(step(months[i - 1]))`. */
  method BuildChain(step: string -> Outcome<string>, start: string, count: int) returns (r: Outcome<seq<string>>)
    ensures r == Chain(step, start, if count < 0 then 0 else count)
  {
    var months := [start];
    var i := 1;
    while i <= count
      invariant 1 <= i && (count >= 0 ==> i <= count + 1) && (count < 0 ==> i == 1)
      invariant Chain(step, start, i - 1) == Success(months)
      decreases count - i
    {
      var next := step(months[i - 1]);
      if next.Failure? {
        ChainFailureSticks(step, start, i, count);
        return Failure(next.error);
      }
      months := months + [next.value];
      i := i + 1;
    }
    r := Success(months);
  }

  /** `expenses.reduce((sum, expense) => sum + expense.amountCents, 0)` over the month's expenses. */
  function MonthTotal(es: seq<Expense>, month: string): int {
    Reduce(0, Amounts(MonthExpenses(es, month)))
  }

  function Points(es: seq<Expense>, months: seq<string>): (r: seq<TrendPoint>)
    ensures |r| == |months| && forall i :: 0 <= i < |months| ==> r[i] == TrendPoint(months[i], MonthTotal(es, months[i]))
  {
    seq(|months|, i requires 0 <= i < |months| => TrendPoint(months[i], MonthTotal(es, months[i])))
  }

  /** `results.reverse()`. */
  function Reverse<T>(s: seq<T>): (r: seq<T>)
    ensures |r| == |s| && forall i :: 0 <= i < |s| ==> r[i] == s[|s| - 1 - i]
  {
    seq(|s|, i requires 0 <= i < |s| => s[|s| - 1 - i])
  }

  /** The start month: the given one, or the month of `today`. */
  function TrendStart(startMonth: Option<string>, today: string): string {
    startMonth.GetOr(GetMonthKey(today))
  }

  function TrendResult(es: seq<Expense>, startMonth: Option<string>, monthsBack: Option<int>, today: string): (r: Outcome<seq<TrendPoint>>)
    ensures r.Success? ==>
      && |r.value| == MonthsCount(monthsBack) + 1
      && r.value[|r.value| - 1].month == TrendStart(startMonth, today)
  {
    var months :- MonthsBack(TrendStart(startMonth, today), MonthsCount(monthsBack));
    Success(Reverse(Points(es, months)))
  }

  /** From year 100 on, the month before a key is the key whose index is one less. */
  lemma PreviousByIndex(m: string)
    requires IsMonthKey(m) && MonthIndex(m) > 1200
    ensures GetPreviousMonthKey(m).Success?
    ensures IsMonthKey(GetPreviousMonthKey(m).value) && MonthIndex(GetPreviousMonthKey(m).value) == MonthIndex(m) - 1
  {
    KeyOfMonthIndex(m);
    assert KeyYear(m) >= 100;
    ShiftMonthKeyIndex(m, -1);
    KeyOfIndexRoundTrip(MonthIndex(m) - 1);
  }

  /** From year 100 on, the month after a key is the key whose index is one more. */
  lemma NextByIndex(a: string, b: string)
    requires IsMonthKey(a) && IsMonthKey(b) && MonthIndex(a) >= 1200 && MonthIndex(b) == MonthIndex(a) + 1
    ensures GetNextMonthKey(a) == Success(b)
  {
    KeyOfMonthIndex(a);
    KeyOfMonthIndex(b);
    assert KeyYear(a) >= 100;
    ShiftMonthKeyIndex(a, 1);
  }

  /** From year 100 on, entry k of the months is the month key k positions before the start. */
  lemma {:induction false} MonthsBackIndex(start: string, n: nat)
    requires IsMonthKey(start) && MonthIndex(start) - n >= 1200
    ensures MonthsBack(start, n).Success?
    ensures forall k :: 0 <= k <= n ==>
      IsMonthKey(MonthsBack(start, n).value[k]) && MonthIndex(MonthsBack(start, n).value[k]) == MonthIndex(start) - k
  {
    if n > 0 {
      MonthsBackIndex(start, n - 1);
      var prev := MonthsBack(start, n - 1).value;
      PreviousByIndex(prev[n - 1]);
      var m := GetPreviousMonthKey(prev[n - 1]).value;
      MonthsBackAppend(start, n, prev, m);
      IndexedExtend(start, prev, m, MonthsBack(start, n).value);
    }
  }

  lemma MonthsBackAppend(start: string, n: nat, prev: seq<string>, m: string)
    requires n > 0 && MonthsBack(start, n - 1) == Success(prev)
    requires GetPreviousMonthKey(prev[n - 1]) == Success(m)
    ensures MonthsBack(start, n) == Success(prev + [m])
  {
  }

  /** Appending the month one before the last entry keeps every entry at its index. */
  lemma IndexedExtend(start: string, prev: seq<string>, m: string, r: seq<string>)
    requires IsMonthKey(start)
    requires forall k :: 0 <= k < |prev| ==> IsMonthKey(prev[k]) && MonthIndex(prev[k]) == MonthIndex(start) - k
    requires IsMonthKey(m) && MonthIndex(m) == MonthIndex(start) - |prev|
    requires r == prev + [m]
    ensures forall k :: 0 <= k <= |prev| ==> IsMonthKey(r[k]) && MonthIndex(r[k]) == MonthIndex(start) - k
  {
  }

  /**
   * The trend, when the start is a month key with `monthsBack` months before it from year
   * 100 on: point i is the month `n - i` months before the start, so the points run oldest
   * first, and its total is the month's sum of amounts.
   */
  lemma TrendPoints(es: seq<Expense>, startMonth: Option<string>, monthsBack: Option<int>, today: string)
    requires var start := TrendStart(startMonth, today);
      IsMonthKey(start) && MonthIndex(start) - MonthsCount(monthsBack) >= 1200
    ensures var r := TrendResult(es, startMonth, monthsBack, today);
      var start := TrendStart(startMonth, today);
      var n := MonthsCount(monthsBack);
      && r.Success?
      && (forall i :: 0 <= i < |r.value| ==>
            && IsMonthKey(r.value[i].month)
            && MonthIndex(r.value[i].month) == MonthIndex(start) - n + i
            && r.value[i].totalCents == Sum(Amounts(MonthExpenses(es, r.value[i].month))))
  {
    var start := TrendStart(startMonth, today);
    var n := MonthsCount(monthsBack);
    MonthsBackIndex(start, n);
    var months := MonthsBack(start, n).value;
    assert TrendResult(es, startMonth, monthsBack, today) == Success(Reverse(Points(es, months)));
    ReversedPoints(es, months, start, n, Reverse(Points(es, months)));
  }

  lemma ReversedPoints(es: seq<Expense>, months: seq<string>, start: string, n: nat, r: seq<TrendPoint>)
    requires IsMonthKey(start) && |months| == n + 1
    requires forall k :: 0 <= k <= n ==> IsMonthKey(months[k]) && MonthIndex(months[k]) == MonthIndex(start) - k
    requires r == Reverse(Points(es, months))
    ensures forall i :: 0 <= i < |r| ==>
      && IsMonthKey(r[i].month)
      && MonthIndex(r[i].month) == MonthIndex(start) - n + i
      && r[i].totalCents == Sum(Amounts(MonthExpenses(es, r[i].month)))
  {
    var p := Points(es, months);
    forall i | 0 <= i < |r|
      ensures IsMonthKey(r[i].month) && MonthIndex(r[i].month) == MonthIndex(start) - n + i
      ensures r[i].totalCents == Sum(Amounts(MonthExpenses(es, r[i].month)))
    {
      assert r[i] == p[n - i] == TrendPoint(months[n - i], MonthTotal(es, months[n - i]));
    }
  }

  /** Consecutive trend points are consecutive months. */
  lemma TrendConsecutive(es: seq<Expense>, startMonth: Option<string>, monthsBack: Option<int>, today: string, i: int)
    requires var start := TrendStart(startMonth, today);
      IsMonthKey(start) && MonthIndex(start) - MonthsCount(monthsBack) >= 1200
    requires 0 <= i < MonthsCount(monthsBack)
    ensures var r := TrendResult(es, startMonth, monthsBack, today);
      && r.Success? && |r.value| == MonthsCount(monthsBack) + 1
      && GetNextMonthKey(r.value[i].month) == Success(r.value[i + 1].month)
  {
    TrendPoints(es, startMonth, monthsBack, today);
    var r := TrendResult(es, startMonth, monthsBack, today).value;
    NextByIndex(r[i].month, r[i + 1].month);
  }

  /** A month without expenses has total 0. */
  lemma MonthTotalEmpty(es: seq<Expense>, month: string)
    requires forall j :: 0 <= j < |es| ==> es[j].month != month
    ensures MonthTotal(es, month) == 0
  {
    var me := MonthExpenses(es, month);
    if me != [] {
      FilterMembers(es, WhereEquals(ExpenseMonth, month), me[0]);
      assert false;
    }
    assert Amounts(me) == [];
  }

  /** A start that is not a month key makes the trend throw as soon as one earlier month is needed. */
  lemma TrendRejectsInvalidStart(es: seq<Expense>, startMonth: Option<string>, monthsBack: Option<int>, today: string)
    requires !IsMonthKey(TrendStart(startMonth, today)) && MonthsCount(monthsBack) >= 1
    ensures TrendResult(es, startMonth, monthsBack, today) ==
      Failure(Thrown("Invalid month key: " + TrendStart(startMonth, today)))
  {
    var start := TrendStart(startMonth, today);
    assert Chain(GetPreviousMonthKey, start, 0) == Success([start]);
    assert GetPreviousMonthKey(start) == Failure(Thrown("Invalid month key: " + start));
    assert MonthsBack(start, 1) == Failure(Thrown("Invalid month key: " + start));
    ChainFailureSticks(GetPreviousMonthKey, start, 1, MonthsCount(monthsBack));
  }

  method GetTrendOverTime(db: Database, startMonth: Option<string>, monthsBack: Option<int>, today: string)
    returns (r: Outcome<seq<TrendPoint>>)
    requires db.Valid()
    ensures r == TrendResult(db.expenses.data, startMonth, monthsBack, today)
  {
    var start := TrendStart(startMonth, today);
    var built := BuildChain(GetPreviousMonthKey, start, monthsBack.GetOr(11));
    if built.Failure? {
      return Failure(built.error);
    }
    var months := built.value;
    var results := MonthlyTotals(db, months);
    r := Success(Reverse(results));
  }

  /** The second loop: `{ month, totalCents }` for each month, in the order of the months. */
  method MonthlyTotals(db: Database, months: seq<string>) returns (results: seq<TrendPoint>)
    requires db.Valid()
    ensures results == Points(db.expenses.data, months)
  {
    ghost var all := Points(db.expenses.data, months);
    results := [];
    var k := 0;
    while k < |months|
      invariant 0 <= k <= |months|
      invariant results == all[..k]
    {
      var rows := db.expenses.Select(WhereEquals(ExpenseMonth, months[k]));
      var total := Reduce(0, Amounts(rows));
      results := results + [TrendPoint(months[k], total)];
      k := k + 1;
    }
  }
}
