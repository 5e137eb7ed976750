/**
 * The expense service (src/services/expense.ts) over the mock database: filtered and sorted
 * listing with an optional limit, lookup, create-or-replace, patching and deletion.
 *
 * `localeCompare` on the ISO date strings is taken as the order of Unicode scalar values
 * (StrLe), which is what it yields on strings of ASCII digits and punctuation in the same
 * layout.
 */
module ExpenseService {
  import opened Wrappers
  import opened Json
  import opened Strings
  import opened Records
  import opened Schemas
  import opened Dates
  import opened Money
  import opened Sorting
  import opened MockDatabase

  function NotFoundMessage(id: string): string { "Expense " + id + " not found" }

  // ------------------------------------------------------------ listExpenses

  datatype Order = Asc | Desc

  datatype ExpenseFilters = ExpenseFilters(
    month: Option<string>,
    categoryId: Option<string>,
    search: Option<string>,
    limit: Option<int>,
    order: Option<Order>)

  /** `filters.search.trim().toLowerCase()`. */
  function SearchQuery(search: string): (q: string)
    ensures q == [] <==> AllWhitespace(search)
  {
    TrimEmptyIff(search);
    ToLower(Trim(search))
  }

  /** `expense.note?.toLowerCase().includes(query) ?? false`. */
  predicate NoteMatches(e: Expense, query: string) {
    e.note.Some? && Contains(ToLower(e.note.value), query)
  }

  /** Whether the search filter is applied: a non-empty search that is not blank once trimmed. */
  predicate Searching(filters: ExpenseFilters) {
    Present(filters.search) && |SearchQuery(filters.search.value)| > 0
  }

  /** The collection listExpenses starts from: `where('month').equals(month)`, or every expense. */
  function MonthCollection(filters: ExpenseFilters): (p: Expense -> bool)
    ensures forall e :: p(e) <==> (Present(filters.month) ==> e.month == filters.month.value)
  {
    if Present(filters.month) then WhereEquals(ExpenseMonth, filters.month.value) else (e: Expense) => true
  }

  /** The collection after the category filter of `applyFilters`. */
  function CategoryCollection(filters: ExpenseFilters): (p: Expense -> bool)
    ensures forall e :: p(e) <==>
      && (Present(filters.month) ==> e.month == filters.month.value)
      && (Present(filters.categoryId) ==> e.categoryId == filters.categoryId.value)
  {
    var base := MonthCollection(filters);
    if Present(filters.categoryId) then And(base, WhereEquals(ExpenseCategory, filters.categoryId.value)) else base
  }

  /** The collection listExpenses reads: the month's expenses or all, narrowed by `applyFilters`. */
  function ExpenseFilter(filters: ExpenseFilters): (p: Expense -> bool)
    ensures forall e :: p(e) <==>
      && (Present(filters.month) ==> e.month == filters.month.value)
      && (Present(filters.categoryId) ==> e.categoryId == filters.categoryId.value)
      && (Searching(filters) ==> NoteMatches(e, SearchQuery(filters.search.value)))
  {
    var byCategory := CategoryCollection(filters);
    if Searching(filters) then
      var query := SearchQuery(filters.search.value);
      And(byCategory, (e: Expense) => NoteMatches(e, query))
    else byCategory
  }

  /** The sort comparator: `a` may stay before `b` when its date is not later (asc) or not earlier (desc). */
  function DateOrder(order: Order): (le: (Expense, Expense) -> bool)
    ensures forall a, b :: le(a, b) == if order == Asc then StrLe(a.date, b.date) else StrLe(b.date, a.date)
  {
    if order == Asc then (a: Expense, b: Expense) => StrLe(a.date, b.date)
    else (a: Expense, b: Expense) => StrLe(b.date, a.date)
  }

  lemma DateOrderIsTotalPreorder(order: Order)
    ensures TotalPreorder(DateOrder(order))
  {
    forall a: string, b: string ensures StrLe(a, b) || StrLe(b, a) {
      StrLeTotal(a, b);
    }
    forall a: string, b: string, c: string ensures StrLe(a, b) && StrLe(b, c) ==> StrLe(a, c) {
      StrLeTransitive(a, b, c);
    }
  }

  /** `records.slice(0, n)`: a negative `n` counts from the end. */
  function SlicePrefix<T>(s: seq<T>, n: int): (r: seq<T>)
    ensures r <= s
    ensures n >= 0 ==> |r| == Min(n, |s|)
    ensures n < 0 ==> |r| == Max(|s| + n, 0)
  {
    if n < 0 then (if |s| + n > 0 then s[..|s| + n] else [])
    else if n < |s| then s[..n] else s
  }

  function SortedMatches(expenses: seq<Expense>, filters: ExpenseFilters): seq<Expense> {
    SortBy(Filter(expenses, ExpenseFilter(filters)), DateOrder(filters.order.GetOr(Desc)))
  }

  function ListExpensesResult(expenses: seq<Expense>, filters: ExpenseFilters): (r: Outcome<seq<Expense>>)
    ensures r.Success? ==>
      r.value == if filters.limit.Some? then SlicePrefix(SortedMatches(expenses, filters), filters.limit.value)
                 else SortedMatches(expenses, filters)
  {
    var sorted := SortedMatches(expenses, filters);
    var limited := if filters.limit.Some? then SlicePrefix(sorted, filters.limit.value) else sorted;
    TryMap(limited, ToExpense)
  }

  /** Every listed expense is a stored expense that passes all the filters. */
  lemma ListExpensesMatches(expenses: seq<Expense>, filters: ExpenseFilters, i: int)
    requires ListExpensesResult(expenses, filters).Success?
    requires 0 <= i < |ListExpensesResult(expenses, filters).value|
    ensures var e := ListExpensesResult(expenses, filters).value[i];
      && e in expenses
      && (Present(filters.month) ==> e.month == filters.month.value)
      && (Present(filters.categoryId) ==> e.categoryId == filters.categoryId.value)
      && (Searching(filters) ==> NoteMatches(e, SearchQuery(filters.search.value)))
  {
    var r := ListExpensesResult(expenses, filters).value;
    var matches := Filter(expenses, ExpenseFilter(filters));
    var sorted := SortedMatches(expenses, filters);
    assert r[i] == sorted[i];
    assert r[i] in multiset(matches);
    FilterMembers(expenses, ExpenseFilter(filters), r[i]);
  }

  /** Without a limit, every matching expense is listed, as often as it is stored. */
  lemma ListExpensesComplete(expenses: seq<Expense>, filters: ExpenseFilters)
    requires filters.limit.None? && ListExpensesResult(expenses, filters).Success?
    ensures multiset(ListExpensesResult(expenses, filters).value) == multiset(Filter(expenses, ExpenseFilter(filters)))
  {
  }

  /** The listing is ordered by date: newest first by default, oldest first with order 'asc'. */
  lemma ListExpensesSorted(expenses: seq<Expense>, filters: ExpenseFilters, i: int, j: int)
    requires ListExpensesResult(expenses, filters).Success?
    requires 0 <= i < j < |ListExpensesResult(expenses, filters).value|
    ensures var r := ListExpensesResult(expenses, filters).value;
      if filters.order == Some(Asc) then StrLe(r[i].date, r[j].date) else StrLe(r[j].date, r[i].date)
  {
    var order := filters.order.GetOr(Desc);
    DateOrderIsTotalPreorder(order);
    SortBySorted(Filter(expenses, ExpenseFilter(filters)), DateOrder(order));
    var sorted := SortedMatches(expenses, filters);
    var r := ListExpensesResult(expenses, filters).value;
    assert r[i] == sorted[i] && r[j] == sorted[j];
    assert DateOrder(order)(sorted[i], sorted[j]);
  }

  /** A non-negative limit keeps the first `limit` expenses of the sorted listing. */
  lemma ListExpensesLimit(expenses: seq<Expense>, filters: ExpenseFilters)
    requires filters.limit.Some? && filters.limit.value >= 0 && ListExpensesResult(expenses, filters).Success?
    ensures var r := ListExpensesResult(expenses, filters).value;
      |r| == Min(filters.limit.value, |Filter(expenses, ExpenseFilter(filters))|) &&
      r <= SortedMatches(expenses, filters)
  {
  }

  /** A search made only of whitespace filters nothing: it lists what no search lists. */
  lemma BlankSearchIgnored(expenses: seq<Expense>, filters: ExpenseFilters)
    requires filters.search.Some? && AllWhitespace(filters.search.value)
    ensures ListExpensesResult(expenses, filters) == ListExpensesResult(expenses, filters.(search := None))
  {
    BlankSearchSameFilter(filters);
  }

  lemma BlankSearchSameFilter(filters: ExpenseFilters)
    requires filters.search.Some? && AllWhitespace(filters.search.value)
    ensures ExpenseFilter(filters) == ExpenseFilter(filters.(search := None))
  {
    TrimEmptyIff(filters.search.value);
    assert !Searching(filters);
  }

  method ListExpenses(db: Database, filters: ExpenseFilters) returns (r: Outcome<seq<Expense>>)
    requires db.Valid()
    ensures r == ListExpensesResult(db.expenses.data, filters)
  {
    var rows := db.expenses.Select(ExpenseFilter(filters));
    var sorted := SortBy(rows, DateOrder(filters.order.GetOr(Desc)));
    var limited := if filters.limit.Some? then SlicePrefix(sorted, filters.limit.value) else sorted;
    r := TryMap(limited, ToExpense);
  }

  // ------------------------------------------------------------ getExpenseById

  function GetExpenseByIdResult(expenses: seq<Expense>, id: string): (r: Outcome<Option<Expense>>)
    ensures r == Success(None) <==> forall i :: 0 <= i < |expenses| ==> expenses[i].id != id
    ensures r.Success? && r.value.Some? ==> r.value.value in expenses && r.value.value.id == id
  {
    var found := Lookup(expenses, ExpenseKey, id);
    if found.None? then Success(None)
    else
      var e :- ToExpense(found.value);
      Success(Some(e))
  }

  method GetExpenseById(db: Database, id: string) returns (r: Outcome<Option<Expense>>)
    requires db.Valid()
    ensures r == GetExpenseByIdResult(db.expenses.data, id)
  {
    var found := db.expenses.Get(id);
    if found.None? {
      r := Success(None);
    } else {
      var e := ToExpense(found.value);
      r := if e.Success? then Success(Some(e.value)) else Failure(e.error);
    }
  }

  // ------------------------------------------------------------ createExpense

  /** The record createExpense writes: the month is the given one, else the month of the date. */
  function NewExpense(p: ExpenseCreate, now: string, newId: string): Expense {
    Expense(p.id.GetOr(newId), p.amountCents, "EUR", p.date, p.month.GetOr(GetMonthKey(p.date)), p.categoryId,
      p.note, now, now)
  }

  function CreateExpenseEffect(expenses: seq<Expense>, input: Json, now: string, newId: string): (w: Effect<Expense, Expense>)
    ensures ParseExpenseCreate(input).Failure? ==> w == Effect(Failure(ValidationError), expenses)
    ensures ParseExpenseCreate(input).Success? ==>
      w.table == Upsert(expenses, ExpenseKey, NewExpense(ParseExpenseCreate(input).value, now, newId))
  {
    match ParseExpenseCreate(input)
    case Failure(e) => Effect(Failure(e), expenses)
    case Success(p) =>
      var record := NewExpense(p, now, newId);
      Effect(ToExpense(record), Upsert(expenses, ExpenseKey, record))
  }

  /** A successful create stores the expense under its id, in euros, and touches no other id. */
  lemma CreateExpenseStores(expenses: seq<Expense>, input: Json, now: string, newId: string, other: string)
    requires CreateExpenseEffect(expenses, input, now, newId).result.Success?
    ensures var p := ParseExpenseCreate(input).value;
      var e := CreateExpenseEffect(expenses, input, now, newId).result.value;
      var table := CreateExpenseEffect(expenses, input, now, newId).table;
      && e.id == p.id.GetOr(newId) && e.amountCents == p.amountCents && e.amountCents >= 0
      && e.currency == "EUR" && e.date == p.date && e.categoryId == p.categoryId && e.note == p.note
      && e.month == (if p.month.Some? then p.month.value else GetMonthKey(p.date)) && IsMonthKey(e.month)
      && e.createdAt == now && e.updatedAt == now
      && Lookup(table, ExpenseKey, e.id) == Some(e)
      && (other != e.id ==> Lookup(table, ExpenseKey, other) == Lookup(expenses, ExpenseKey, other))
  {
    var p := ParseExpenseCreate(input).value;
    var record := NewExpense(p, now, newId);
    LookupUpsertSame(expenses, ExpenseKey, record);
    if other != record.id {
      LookupUpsertOther(expenses, ExpenseKey, record, other);
    }
  }

  /** With a valid clock, a parsed input whose month is given or readable from the date is created. */
  lemma CreateExpenseSucceeds(expenses: seq<Expense>, input: Json, now: string, newId: string)
    requires ParseExpenseCreate(input).Success? && IsIsoDateTime(now)
    requires var p := ParseExpenseCreate(input).value; p.month.Some? || IsMonthKey(GetMonthKey(p.date))
    ensures CreateExpenseEffect(expenses, input, now, newId).result.Success?
  {
  }

  method CreateExpense(db: Database, input: Json, now: string, newId: string) returns (r: Outcome<Expense>)
    requires db.Valid()
    modifies db.expenses
    ensures r == CreateExpenseEffect(old(db.expenses.data), input, now, newId).result
    ensures db.expenses.data == CreateExpenseEffect(old(db.expenses.data), input, now, newId).table
  {
    var parsed := ParseExpenseCreate(input);
    if parsed.Failure? {
      return Failure(parsed.error);
    }
    var record := NewExpense(parsed.value, now, newId);
    var _ := db.expenses.Put(record);
    r := ToExpense(record);
  }

  // ------------------------------------------------------------ updateExpense

  /**
   * `{ ...existing, ...parsed, date: nextDate, month: parsed.month ?? getMonthKey(nextDate), updatedAt: now }`:
   * a patched date without a patched month moves the expense to the date's month.
   */
  function PatchExpense(existing: Expense, p: ExpensePatch, now: string): (e: Expense)
    ensures e.id == existing.id && e.currency == existing.currency && e.createdAt == existing.createdAt
    ensures e.updatedAt == now
    ensures e.amountCents == (if p.amountCents.Some? then p.amountCents.value else existing.amountCents)
    ensures e.date == (if p.date.Some? then p.date.value else existing.date)
    ensures e.month == (if p.month.Some? then p.month.value else GetMonthKey(e.date))
    ensures e.categoryId == (if p.categoryId.Some? then p.categoryId.value else existing.categoryId)
    ensures e.note == (if p.note.Some? then p.note else existing.note)
  {
    var nextDate := p.date.GetOr(existing.date);
    existing.(amountCents := p.amountCents.GetOr(existing.amountCents),
              categoryId := p.categoryId.GetOr(existing.categoryId),
              note := if p.note.Some? then p.note else existing.note,
              date := nextDate,
              month := p.month.GetOr(GetMonthKey(nextDate)),
              updatedAt := now)
  }

  function UpdateExpenseEffect(expenses: seq<Expense>, id: string, patch: Json, now: string): (w: Effect<Expense, Expense>)
    ensures ParseExpenseUpdate(patch).Failure? ==> w == Effect(Failure(ValidationError), expenses)
    ensures ParseExpenseUpdate(patch).Success? && Lookup(expenses, ExpenseKey, id).None? ==>
      w == Effect(Failure(Thrown(NotFoundMessage(id))), expenses)
  {
    match ParseExpenseUpdate(patch)
    case Failure(e) => Effect(Failure(e), expenses)
    case Success(p) =>
      match Lookup(expenses, ExpenseKey, id)
      case None => Effect(Failure(Thrown(NotFoundMessage(id))), expenses)
      case Some(existing) =>
        var record := PatchExpense(existing, p, now);
        Effect(ToExpense(record), Upsert(expenses, ExpenseKey, record))
  }

  /** A successful update rewrites the expense stored under `id` in place and nothing else. */
  lemma UpdateExpenseStores(expenses: seq<Expense>, id: string, patch: Json, now: string, other: string)
    requires UpdateExpenseEffect(expenses, id, patch, now).result.Success?
    ensures var existing := Lookup(expenses, ExpenseKey, id);
      var e := UpdateExpenseEffect(expenses, id, patch, now).result.value;
      var table := UpdateExpenseEffect(expenses, id, patch, now).table;
      && existing.Some?
      && e == PatchExpense(existing.value, ParseExpenseUpdate(patch).value, now)
      && e.id == id && e.createdAt == existing.value.createdAt
      && Lookup(table, ExpenseKey, id) == Some(e)
      && |table| == |expenses|
      && (other != id ==> Lookup(table, ExpenseKey, other) == Lookup(expenses, ExpenseKey, other))
  {
    var existing := Lookup(expenses, ExpenseKey, id).value;
    var record := PatchExpense(existing, ParseExpenseUpdate(patch).value, now);
    LookupUpsertSame(expenses, ExpenseKey, record);
    if other != id {
      LookupUpsertOther(expenses, ExpenseKey, record, other);
    }
  }

  /** Moving an expense's date without naming a month keeps its month in step with its date. */
  lemma UpdateDateMovesMonth(existing: Expense, p: ExpensePatch, now: string)
    requires p.date.Some? && p.month.None?
    ensures PatchExpense(existing, p, now).month == GetMonthKey(p.date.value)
  {
  }

  method UpdateExpense(db: Database, id: string, patch: Json, now: string) returns (r: Outcome<Expense>)
    requires db.Valid()
    modifies db.expenses
    ensures r == UpdateExpenseEffect(old(db.expenses.data), id, patch, now).result
    ensures db.expenses.data == UpdateExpenseEffect(old(db.expenses.data), id, patch, now).table
  {
    var parsed := ParseExpenseUpdate(patch);
    if parsed.Failure? {
      return Failure(parsed.error);
    }
    var existing := db.expenses.Get(id);
    if existing.None? {
      return Failure(Thrown(NotFoundMessage(id)));
    }
    var record := PatchExpense(existing.value, parsed.value, now);
    var _ := db.expenses.Put(record);
    r := ToExpense(record);
  }

  // ------------------------------------------------------------ deleteExpense

  /** `deleteExpense(id)`: the expenses table without that id. */
  method DeleteExpense(db: Database, id: string)
    requires db.Valid()
    modifies db.expenses
    ensures db.expenses.data == Without(old(db.expenses.data), ExpenseKey, id)
  {
    db.expenses.Delete(id);
  }
}
