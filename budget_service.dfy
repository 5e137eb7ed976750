/**
 * The budget service (src/services/budget.ts) over the mock database: listing, lookup,
 * create-or-replace with a duplicate guard, patching, deletion, and the monthly snapshots.
 *
 * Each write is a pure effect on the budgets table (what the call returns and the table
 * it leaves), and a method on the database whose contract is that effect.  The clock
 * (`getCurrentIsoTimestamp()`) and the id generator (`createId()`) are parameters.
 */
module BudgetService {
  import opened Wrappers
  import opened Json
  import opened Records
  import opened Schemas
  import opened Dates
  import opened BudgetCalc
  import opened MockDatabase
  import opened Totals

  const DuplicateBudgetMessage: string := "Budget for this category and month already exists"

  function NotFoundMessage(id: string): string { "Budget " + id + " not found" }

  /** At most one budget per month and category: what the duplicate guard of createBudget keeps. */
  predicate OnePerMonthAndCategory(budgets: seq<Budget>) {
    forall i, j :: 0 <= i < j < |budgets| ==>
      budgets[i].month != budgets[j].month || budgets[i].categoryId != budgets[j].categoryId
  }

  /** `where('month').equals(month).and((budget) => budget.categoryId === categoryId)`. */
  function InSlot(month: string, categoryId: string): (p: Budget -> bool)
    ensures forall b :: p(b) <==> b.month == month && b.categoryId == categoryId
  {
    And(WhereEquals(BudgetMonth, month), WhereEquals(BudgetCategory, categoryId))
  }

  // ------------------------------------------------------------ listBudgets

  datatype BudgetFilters = BudgetFilters(month: Option<string>, categoryId: Option<string>)

  /** The collection listBudgets reads: by month when one is given, then by category when one is given. */
  function BudgetFilter(filters: BudgetFilters): (p: Budget -> bool)
    ensures forall b :: p(b) <==>
      (Present(filters.month) ==> b.month == filters.month.value) &&
      (Present(filters.categoryId) ==> b.categoryId == filters.categoryId.value)
  {
    var byMonth := if Present(filters.month) then WhereEquals(BudgetMonth, filters.month.value) else (b: Budget) => true;
    if Present(filters.categoryId) then And(byMonth, WhereEquals(BudgetCategory, filters.categoryId.value)) else byMonth
  }

  function ListBudgetsResult(budgets: seq<Budget>, filters: BudgetFilters): (r: Outcome<seq<Budget>>)
    ensures r.Success? <==> forall b :: b in budgets && BudgetFilter(filters)(b) ==> ToBudget(b).Success?
    ensures r.Success? ==> r.value == Filter(budgets, BudgetFilter(filters))
  {
    var rows := Filter(budgets, BudgetFilter(filters));
    forall b | b in budgets && BudgetFilter(filters)(b) ensures b in rows {
      FilterMembers(budgets, BudgetFilter(filters), b);
    }
    TryMap(rows, ToBudget)
  }

  /** listBudgets returns the stored budgets that match the filters, each of them, in table order. */
  lemma ListBudgetsMatches(budgets: seq<Budget>, filters: BudgetFilters, b: Budget)
    requires ListBudgetsResult(budgets, filters).Success?
    ensures b in ListBudgetsResult(budgets, filters).value <==>
      b in budgets &&
      (Present(filters.month) ==> b.month == filters.month.value) &&
      (Present(filters.categoryId) ==> b.categoryId == filters.categoryId.value)
  {
    FilterMembers(budgets, BudgetFilter(filters), b);
  }

  /** With no filters, listBudgets returns the whole table. */
  lemma ListBudgetsUnfiltered(budgets: seq<Budget>)
    requires ListBudgetsResult(budgets, BudgetFilters(None, None)).Success?
    ensures ListBudgetsResult(budgets, BudgetFilters(None, None)).value == budgets
  {
    FilterAll(budgets, BudgetFilter(BudgetFilters(None, None)));
  }

  method ListBudgets(db: Database, filters: BudgetFilters) returns (r: Outcome<seq<Budget>>)
    requires db.Valid()
    ensures r == ListBudgetsResult(db.budgets.data, filters)
  {
    var rows := db.budgets.Select(BudgetFilter(filters));
    r := TryMap(rows, ToBudget);
  }

  // ------------------------------------------------------------ getBudgetById

  function GetBudgetByIdResult(budgets: seq<Budget>, id: string): (r: Outcome<Option<Budget>>)
    ensures r == Success(None) <==> forall i :: 0 <= i < |budgets| ==> budgets[i].id != id
    ensures r.Success? && r.value.Some? ==> r.value.value in budgets && r.value.value.id == id
  {
    var found := Lookup(budgets, BudgetKey, id);
    if found.None? then Success(None)
    else
      var b :- ToBudget(found.value);
      Success(Some(b))
  }

  method GetBudgetById(db: Database, id: string) returns (r: Outcome<Option<Budget>>)
    requires db.Valid()
    ensures r == GetBudgetByIdResult(db.budgets.data, id)
  {
    var found := db.budgets.Get(id);
    if found.None? {
      r := Success(None);
    } else {
      var b := ToBudget(found.value);
      r := if b.Success? then Success(Some(b.value)) else Failure(b.error);
    }
  }

  // ------------------------------------------------------------ createBudget

  /** The record createBudget writes. */
  function NewBudget(p: BudgetCreate, now: string, newId: string): Budget {
    Budget(p.id.GetOr(newId), p.month, p.categoryId, p.limitCents, p.carryOverPrev.GetOr(false), now, now)
  }

  function CreateBudgetEffect(budgets: seq<Budget>, input: Json, now: string, newId: string): (w: Effect<Budget, Budget>)
    ensures w.table == budgets ||
      (ParseBudgetCreate(input).Success? &&
       w.table == Upsert(budgets, BudgetKey, NewBudget(ParseBudgetCreate(input).value, now, newId)))
    ensures ParseBudgetCreate(input).Failure? ==> w == Effect(Failure(ValidationError), budgets)
  {
    match ParseBudgetCreate(input)
    case Failure(e) => Effect(Failure(e), budgets)
    case Success(p) =>
      var duplicate := First(budgets, InSlot(p.month, p.categoryId));
      if duplicate.Some? && Some(duplicate.value.id) != p.id then
        Effect(Failure(Thrown(DuplicateBudgetMessage)), budgets)
      else
        var record := NewBudget(p, now, newId);
        Effect(ToBudget(record), Upsert(budgets, BudgetKey, record))
  }

  /** A successful create stores the budget under its id, built from the input, and touches no other id. */
  lemma CreateBudgetStores(budgets: seq<Budget>, input: Json, now: string, newId: string, other: string)
    requires CreateBudgetEffect(budgets, input, now, newId).result.Success?
    ensures var p := ParseBudgetCreate(input).value;
      var b := CreateBudgetEffect(budgets, input, now, newId).result.value;
      var table := CreateBudgetEffect(budgets, input, now, newId).table;
      && b.id == p.id.GetOr(newId) && b.month == p.month && b.categoryId == p.categoryId
      && b.limitCents == p.limitCents && b.carryOverPrev == p.carryOverPrev.GetOr(false)
      && b.createdAt == now && b.updatedAt == now
      && Lookup(table, BudgetKey, b.id) == Some(b)
      && (other != b.id ==> Lookup(table, BudgetKey, other) == Lookup(budgets, BudgetKey, other))
  {
    var p := ParseBudgetCreate(input).value;
    var record := NewBudget(p, now, newId);
    LookupUpsertSame(budgets, BudgetKey, record);
    if other != record.id {
      LookupUpsertOther(budgets, BudgetKey, record, other);
    }
  }

  /** A budget for the same month and category under another id is refused, and nothing is written. */
  lemma CreateBudgetRejectsDuplicate(budgets: seq<Budget>, input: Json, now: string, newId: string)
    requires ParseBudgetCreate(input).Success?
    requires var p := ParseBudgetCreate(input).value;
      exists i :: 0 <= i < |budgets| && budgets[i].month == p.month && budgets[i].categoryId == p.categoryId
    requires var p := ParseBudgetCreate(input).value;
      OnePerMonthAndCategory(budgets) &&
      forall i :: 0 <= i < |budgets| && budgets[i].month == p.month && budgets[i].categoryId == p.categoryId ==>
        Some(budgets[i].id) != p.id
    ensures CreateBudgetEffect(budgets, input, now, newId) == Effect(Failure(Thrown(DuplicateBudgetMessage)), budgets)
  {
  }

  /** Without such a duplicate, and with a valid clock, create succeeds. */
  lemma CreateBudgetSucceeds(budgets: seq<Budget>, input: Json, now: string, newId: string)
    requires ParseBudgetCreate(input).Success? && IsIsoDateTime(now)
    requires var p := ParseBudgetCreate(input).value;
      forall i :: 0 <= i < |budgets| && budgets[i].month == p.month && budgets[i].categoryId == p.categoryId ==>
        Some(budgets[i].id) == p.id
    ensures CreateBudgetEffect(budgets, input, now, newId).result.Success?
  {
  }

  /** createBudget keeps at most one budget per month and category. */
  lemma CreateBudgetKeepsOnePerSlot(budgets: seq<Budget>, input: Json, now: string, newId: string)
    requires UniqueKeys(budgets, BudgetKey) && OnePerMonthAndCategory(budgets)
    ensures var table := CreateBudgetEffect(budgets, input, now, newId).table;
      UniqueKeys(table, BudgetKey) && OnePerMonthAndCategory(table)
  {
    var w := CreateBudgetEffect(budgets, input, now, newId);
    if w.table != budgets {
      var p := ParseBudgetCreate(input).value;
      var record := NewBudget(p, now, newId);
      UpsertKeepsUnique(budgets, BudgetKey, record);
      var duplicate := First(budgets, InSlot(p.month, p.categoryId));
    }
  }

  method CreateBudget(db: Database, input: Json, now: string, newId: string) returns (r: Outcome<Budget>)
    requires db.Valid()
    modifies db.budgets
    ensures r == CreateBudgetEffect(old(db.budgets.data), input, now, newId).result
    ensures db.budgets.data == CreateBudgetEffect(old(db.budgets.data), input, now, newId).table
  {
    var parsed := ParseBudgetCreate(input);
    if parsed.Failure? {
      return Failure(parsed.error);
    }
    var p := parsed.value;
    var duplicate := db.budgets.SelectFirst(InSlot(p.month, p.categoryId));
    if duplicate.Some? && Some(duplicate.value.id) != p.id {
      return Failure(Thrown(DuplicateBudgetMessage));
    }
    var record := NewBudget(p, now, newId);
    var _ := db.budgets.Put(record);
    r := ToBudget(record);
  }

  // ------------------------------------------------------------ updateBudget

  /** `{ ...existing, ...parsed, updatedAt: now }`: only the keys the patch holds override. */
  function PatchBudget(existing: Budget, p: BudgetPatch, now: string): (b: Budget)
    ensures b.id == existing.id && b.month == existing.month && b.categoryId == existing.categoryId
    ensures b.createdAt == existing.createdAt && b.updatedAt == now
    ensures b.limitCents == (if p.limitCents.Some? then p.limitCents.value else existing.limitCents)
    ensures b.carryOverPrev == (if p.carryOverPrev.Some? then p.carryOverPrev.value else existing.carryOverPrev)
  {
    existing.(limitCents := p.limitCents.GetOr(existing.limitCents),
              carryOverPrev := p.carryOverPrev.GetOr(existing.carryOverPrev),
              updatedAt := now)
  }

  function UpdateBudgetEffect(budgets: seq<Budget>, id: string, patch: Json, now: string): (w: Effect<Budget, Budget>)
    ensures ParseBudgetUpdate(patch).Failure? ==> w == Effect(Failure(ValidationError), budgets)
    ensures ParseBudgetUpdate(patch).Success? && Lookup(budgets, BudgetKey, id).None? ==>
      w == Effect(Failure(Thrown(NotFoundMessage(id))), budgets)
  {
    match ParseBudgetUpdate(patch)
    case Failure(e) => Effect(Failure(e), budgets)
    case Success(p) =>
      match Lookup(budgets, BudgetKey, id)
      case None => Effect(Failure(Thrown(NotFoundMessage(id))), budgets)
      case Some(existing) =>
        var record := PatchBudget(existing, p, now);
        Effect(ToBudget(record), Upsert(budgets, BudgetKey, record))
  }

  /** A successful update rewrites the budget stored under `id` in place, keeping its month and category. */
  lemma UpdateBudgetStores(budgets: seq<Budget>, id: string, patch: Json, now: string, other: string)
    requires UpdateBudgetEffect(budgets, id, patch, now).result.Success?
    ensures var existing := Lookup(budgets, BudgetKey, id);
      var b := UpdateBudgetEffect(budgets, id, patch, now).result.value;
      var table := UpdateBudgetEffect(budgets, id, patch, now).table;
      && existing.Some?
      && b == PatchBudget(existing.value, ParseBudgetUpdate(patch).value, now)
      && b.id == id && b.month == existing.value.month && b.categoryId == existing.value.categoryId
      && Lookup(table, BudgetKey, id) == Some(b)
      && |table| == |budgets|
      && (other != id ==> Lookup(table, BudgetKey, other) == Lookup(budgets, BudgetKey, other))
  {
    var existing := Lookup(budgets, BudgetKey, id).value;
    var record := PatchBudget(existing, ParseBudgetUpdate(patch).value, now);
    LookupUpsertSame(budgets, BudgetKey, record);
    if other != id {
      LookupUpsertOther(budgets, BudgetKey, record, other);
    }
  }

  /** An update never moves a budget to another month or category, so the one-per-slot rule survives it. */
  lemma UpdateBudgetKeepsOnePerSlot(budgets: seq<Budget>, id: string, patch: Json, now: string)
    requires OnePerMonthAndCategory(budgets)
    ensures OnePerMonthAndCategory(UpdateBudgetEffect(budgets, id, patch, now).table)
  {
    var w := UpdateBudgetEffect(budgets, id, patch, now);
    if w.table != budgets {
      var existing := Lookup(budgets, BudgetKey, id).value;
      var record := PatchBudget(existing, ParseBudgetUpdate(patch).value, now);
      var i := IndexOfKey(budgets, BudgetKey, id);
      assert budgets[i] == existing;
      assert w.table == budgets[i := record];
    }
  }

  method UpdateBudget(db: Database, id: string, patch: Json, now: string) returns (r: Outcome<Budget>)
    requires db.Valid()
    modifies db.budgets
    ensures r == UpdateBudgetEffect(old(db.budgets.data), id, patch, now).result
    ensures db.budgets.data == UpdateBudgetEffect(old(db.budgets.data), id, patch, now).table
  {
    var parsed := ParseBudgetUpdate(patch);
    if parsed.Failure? {
      return Failure(parsed.error);
    }
    var existing := db.budgets.Get(id);
    if existing.None? {
      return Failure(Thrown(NotFoundMessage(id)));
    }
    var record := PatchBudget(existing.value, parsed.value, now);
    var _ := db.budgets.Put(record);
    r := ToBudget(record);
  }

  // ------------------------------------------------------------ deleteBudget

  /** `deleteBudget(id)`: the budgets table without that id (see MockDatabase.LookupWithout). */
  method DeleteBudget(db: Database, id: string)
    requires db.Valid()
    modifies db.budgets
    ensures db.budgets.data == Without(old(db.budgets.data), BudgetKey, id)
  {
    db.budgets.Delete(id);
  }

  /** Removing a budget never puts two in one slot: the one-per-slot rule survives a delete. */
  lemma {:induction false} DeleteBudgetKeepsOnePerSlot(budgets: seq<Budget>, id: string)
    requires OnePerMonthAndCategory(budgets)
    ensures OnePerMonthAndCategory(Without(budgets, BudgetKey, id))
  {
    if budgets != [] {
      assert OnePerMonthAndCategory(budgets[1..]);
      DeleteBudgetKeepsOnePerSlot(budgets[1..], id);
      var rest := Without(budgets[1..], BudgetKey, id);
      forall j | 0 <= j < |rest|
        ensures rest[j].month != budgets[0].month || rest[j].categoryId != budgets[0].categoryId
      {
        assert rest[j] in budgets[1..];
      }
    }
  }

  // ------------------------------------------------------------ snapshots

  datatype SnapshotInput = SnapshotInput(
    month: string,
    budgets: seq<Budget>,
    expenses: seq<Expense>,
    previousBudgets: Option<seq<Budget>>,
    previousExpenses: Option<seq<Expense>>)

  /** `input.previousBudgets?.find((item) => item.categoryId === categoryId)`. */
  function PreviousBudgetFor(input: SnapshotInput, categoryId: string): (r: Option<Budget>)
    ensures r.None? <==> (input.previousBudgets.None? ||
      forall i :: 0 <= i < |input.previousBudgets.value| ==> input.previousBudgets.value[i].categoryId != categoryId)
    ensures r.Some? ==> (input.previousBudgets.Some? && r.value.categoryId == categoryId &&
      exists i :: 0 <= i < |input.previousBudgets.value| && input.previousBudgets.value[i] == r.value &&
        forall j :: 0 <= j < i ==> input.previousBudgets.value[j].categoryId != categoryId)
  {
    if input.previousBudgets.None? then None
    else First(input.previousBudgets.value, WhereEquals(BudgetCategory, categoryId))
  }

  /** The snapshot of one budget, defined from the reference totals. */
  function SnapshotOf(input: SnapshotInput, b: Budget): (s: BudgetSnapshot)
    ensures s.actualCents == CategoryTotal(input.expenses, b.categoryId)
    ensures PreviousBudgetFor(input, b.categoryId).None? ==> s.carryInCents == 0
  {
    var previous := PreviousBudgetFor(input, b.categoryId);
    var previousActual :=
      if previous.Some? then Some(CategoryTotal(input.previousExpenses.GetOr([]), b.categoryId)) else None;
    CalculateBudgetSnapshot(b, CategoryTotal(input.expenses, b.categoryId), previous, previousActual, None)
  }

  function SnapshotsOf(input: SnapshotInput): (r: seq<BudgetSnapshot>)
    ensures |r| == |input.budgets|
    ensures forall i :: 0 <= i < |r| ==> r[i] == SnapshotOf(input, input.budgets[i])
  {
    seq(|input.budgets|, i requires 0 <= i < |input.budgets| => SnapshotOf(input, input.budgets[i]))
  }

  /** The callback of `input.budgets.map(...)`: one snapshot read off the two totals maps. */
  function SnapshotFromTotals(input: SnapshotInput, b: Budget, totals: seq<Entry>, previousTotals: seq<Entry>): BudgetSnapshot {
    var previous := PreviousBudgetFor(input, b.categoryId);
    CalculateBudgetSnapshot(b, GetOrZero(totals, b.categoryId), previous,
      if previous.Some? then Some(GetOrZero(previousTotals, b.categoryId)) else None, None)
  }

  /** Read off the totals the loops build, the callback gives the reference snapshot. */
  lemma SnapshotFromTotalsIsSnapshotOf(input: SnapshotInput, b: Budget, totals: seq<Entry>, previousTotals: seq<Entry>)
    requires totals == TotalsOf(input.expenses)
    requires previousTotals == TotalsOf(input.previousExpenses.GetOr([]))
    ensures SnapshotFromTotals(input, b, totals, previousTotals) == SnapshotOf(input, b)
  {
    GetOrZeroOfTotals(input.expenses, b.categoryId);
    GetOrZeroOfTotals(input.previousExpenses.GetOr([]), b.categoryId);
  }

  /**
   * `buildBudgetSnapshots`: two loops fill the current and previous totals maps, then each
   * budget is turned into a snapshot.  Proved equal to the reference definition.
   */
  method BuildBudgetSnapshots(input: SnapshotInput) returns (r: seq<BudgetSnapshot>)
    ensures r == SnapshotsOf(input)
  {
    var totals := AccumulateTotals(input.expenses);
    var previousTotals := AccumulateTotals(input.previousExpenses.GetOr([]));
    ghost var all := SnapshotsOf(input);
    r := [];
    var i := 0;
    while i < |input.budgets|
      invariant 0 <= i <= |input.budgets|
      invariant r == all[..i]
    {
      SnapshotFromTotalsIsSnapshotOf(input, input.budgets[i], totals, previousTotals);
      assert all[..i + 1] == all[..i] + [all[i]];
      r := r + [SnapshotFromTotals(input, input.budgets[i], totals, previousTotals)];
      i := i + 1;
    }
    assert all[..i] == all;
  }

  /** Every snapshot is of a budget of its own category, with actual = the category's spend. */
  lemma SnapshotsReport(input: SnapshotInput, i: int)
    requires 0 <= i < |input.budgets|
    ensures var s := SnapshotsOf(input)[i];
      var b := input.budgets[i];
      && s.categoryId == b.categoryId && s.month == b.month && s.limitCents == b.limitCents
      && s.actualCents == CategoryTotal(input.expenses, b.categoryId)
      && s.availableCents == b.limitCents + s.carryInCents - s.actualCents
      && s.carryInCents == CarryIn(b, PreviousBudgetFor(input, b.categoryId),
           if PreviousBudgetFor(input, b.categoryId).Some?
           then Some(CategoryTotal(input.previousExpenses.GetOr([]), b.categoryId)) else None)
  {
  }

  /** A budget carries over exactly the previous month's unspent part of its category's previous budget. */
  lemma SnapshotCarryOver(input: SnapshotInput, i: int)
    requires 0 <= i < |input.budgets| && input.budgets[i].carryOverPrev
    requires PreviousBudgetFor(input, input.budgets[i].categoryId).Some?
    ensures var b := input.budgets[i];
      var prev := PreviousBudgetFor(input, b.categoryId).value;
      var leftover := prev.limitCents - CategoryTotal(input.previousExpenses.GetOr([]), b.categoryId);
      prev.categoryId == b.categoryId &&
      SnapshotsOf(input)[i].carryInCents == (if leftover > 0 then leftover else 0)
  {
    var b := input.budgets[i];
    var bs := input.previousBudgets.value;
    var prev := PreviousBudgetFor(input, b.categoryId).value;
    var k :| 0 <= k < |bs| && bs[k] == prev && WhereEquals(BudgetCategory, b.categoryId)(bs[k]);
  }

  /**
   * `getBudgetSnapshots(month)`: this month's budgets and expenses, the previous month's,
   * each read through its schema, then the snapshots.  The first failure wins: a stored
   * record the schema rejects, or a month key `getPreviousMonthKey` rejects.
   */
  function BudgetSnapshotsResult(budgets: seq<Budget>, expenses: seq<Expense>, month: string): (r: Outcome<seq<BudgetSnapshot>>)
    ensures r.Success? ==> IsMonthKey(month)
    ensures r.Success? ==> |r.value| == |Filter(budgets, WhereEquals(BudgetMonth, month))|
    ensures r.Success? ==> forall i :: 0 <= i < |r.value| ==> r.value[i].month == month
  {
    var current :- TryMap(Filter(budgets, WhereEquals(BudgetMonth, month)), ToBudget);
    var spent :- TryMap(Filter(expenses, WhereEquals(ExpenseMonth, month)), ToExpense);
    var previousMonth :- GetPreviousMonthKey(month);
    var previous :- TryMap(Filter(budgets, WhereEquals(BudgetMonth, previousMonth)), ToBudget);
    var previousSpent :- TryMap(Filter(expenses, WhereEquals(ExpenseMonth, previousMonth)), ToExpense);
    var input := SnapshotInput(month, current, spent, Some(previous), Some(previousSpent));
    BudgetRowsOfMonth(budgets, month);
    SnapshotsKeepMonth(input);
    Success(SnapshotsOf(input))
  }

  /**
   * What getBudgetSnapshots reports, read against the stored tables: snapshot i is the i-th
   * stored budget of the month, its actual spend is the category's total over the month's
   * stored expenses, and its carry-in comes from the first stored budget of that category in
   * the previous month and that month's stored expenses.
   */
  lemma BudgetSnapshotsOfStore(budgets: seq<Budget>, expenses: seq<Expense>, month: string, i: int)
    requires BudgetSnapshotsResult(budgets, expenses, month).Success?
    requires 0 <= i < |Filter(budgets, WhereEquals(BudgetMonth, month))|
    ensures GetPreviousMonthKey(month).Success?
    ensures var s := BudgetSnapshotsResult(budgets, expenses, month).value[i];
      var b := Filter(budgets, WhereEquals(BudgetMonth, month))[i];
      var previousMonth := GetPreviousMonthKey(month).value;
      var previous := First(Filter(budgets, WhereEquals(BudgetMonth, previousMonth)), WhereEquals(BudgetCategory, b.categoryId));
      var previousSpent := Filter(expenses, WhereEquals(ExpenseMonth, previousMonth));
      && b in budgets && b.month == month
      && s.categoryId == b.categoryId && s.month == month && s.limitCents == b.limitCents
      && s.actualCents == CategoryTotal(Filter(expenses, WhereEquals(ExpenseMonth, month)), b.categoryId)
      && s.carryInCents == CarryIn(b, previous,
           if previous.Some? then Some(CategoryTotal(previousSpent, b.categoryId)) else None)
      && s.availableCents == b.limitCents + s.carryInCents - s.actualCents
  {
    var previousMonth := GetPreviousMonthKey(month).value;
    var input := StoreInput(budgets, expenses, month, previousMonth);
    SnapshotsOfStoreInput(budgets, expenses, month);
    SnapshotsReport(input, i);
    FilterMembers(budgets, WhereEquals(BudgetMonth, month), input.budgets[i]);
  }

  /** The snapshot input getBudgetSnapshots reads from the tables, before the schemas. */
  function StoreInput(budgets: seq<Budget>, expenses: seq<Expense>, month: string, previousMonth: string): SnapshotInput {
    SnapshotInput(month,
      Filter(budgets, WhereEquals(BudgetMonth, month)),
      Filter(expenses, WhereEquals(ExpenseMonth, month)),
      Some(Filter(budgets, WhereEquals(BudgetMonth, previousMonth))),
      Some(Filter(expenses, WhereEquals(ExpenseMonth, previousMonth))))
  }

  /** The schemas keep every record they accept, so a successful read snapshots the stored rows. */
  lemma SnapshotsOfStoreInput(budgets: seq<Budget>, expenses: seq<Expense>, month: string)
    requires BudgetSnapshotsResult(budgets, expenses, month).Success?
    ensures GetPreviousMonthKey(month).Success?
    ensures BudgetSnapshotsResult(budgets, expenses, month).value ==
      SnapshotsOf(StoreInput(budgets, expenses, month, GetPreviousMonthKey(month).value))
  {
    var previousMonth := GetPreviousMonthKey(month).value;
    TryMapKeeps(Filter(budgets, WhereEquals(BudgetMonth, month)), ToBudget);
    TryMapKeeps(Filter(expenses, WhereEquals(ExpenseMonth, month)), ToExpense);
    TryMapKeeps(Filter(budgets, WhereEquals(BudgetMonth, previousMonth)), ToBudget);
    TryMapKeeps(Filter(expenses, WhereEquals(ExpenseMonth, previousMonth)), ToExpense);
  }

  /** A schema that keeps every record it accepts gives back the rows unchanged. */
  lemma TryMapKeeps<T>(rows: seq<T>, f: T -> Outcome<T>)
    requires forall x :: f(x).Success? ==> f(x).value == x
    ensures TryMap(rows, f).Success? ==> TryMap(rows, f).value == rows
  {
  }

  /** The budgets read through the schema for a month all belong to that month. */
  lemma BudgetRowsOfMonth(budgets: seq<Budget>, month: string)
    ensures var r := TryMap(Filter(budgets, WhereEquals(BudgetMonth, month)), ToBudget);
      r.Success? ==> forall i :: 0 <= i < |r.value| ==> r.value[i].month == month
  {
    var rows := Filter(budgets, WhereEquals(BudgetMonth, month));
    var r := TryMap(rows, ToBudget);
    if r.Success? {
      assert forall i :: 0 <= i < |r.value| ==> r.value[i] == rows[i] && WhereEquals(BudgetMonth, month)(rows[i]);
    }
  }

  lemma SnapshotsKeepMonth(input: SnapshotInput)
    requires forall i :: 0 <= i < |input.budgets| ==> input.budgets[i].month == input.month
    ensures forall i :: 0 <= i < |SnapshotsOf(input)| ==> SnapshotsOf(input)[i].month == input.month
  {
  }

  method GetBudgetSnapshots(db: Database, month: string) returns (r: Outcome<seq<BudgetSnapshot>>)
    requires db.Valid()
    ensures r == BudgetSnapshotsResult(db.budgets.data, db.expenses.data, month)
  {
    var rows := db.budgets.Select(WhereEquals(BudgetMonth, month));
    var current :- TryMap(rows, ToBudget);
    var spentRows := db.expenses.Select(WhereEquals(ExpenseMonth, month));
    var spent :- TryMap(spentRows, ToExpense);
    var previousMonth :- GetPreviousMonthKey(month);
    var previousRows := db.budgets.Select(WhereEquals(BudgetMonth, previousMonth));
    var previous :- TryMap(previousRows, ToBudget);
    var previousSpentRows := db.expenses.Select(WhereEquals(ExpenseMonth, previousMonth));
    var previousSpent :- TryMap(previousSpentRows, ToExpense);
    var snapshots := BuildBudgetSnapshots(SnapshotInput(month, current, spent, Some(previous), Some(previousSpent)));
    r := Success(snapshots);
  }
}
