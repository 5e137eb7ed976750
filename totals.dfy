/**
 * The per-category running totals that src/services/budget.ts (buildBudgetSnapshots) and
 * src/services/report.ts (getSpendByCategory) build with
 *   `totals.set(expense.categoryId, (totals.get(expense.categoryId) ?? 0) + expense.amountCents)`.
 * A JavaScript Map keeps its keys in first-insertion order; it is modelled as a sequence of
 * (key, value) entries on which `set` is the table `put` of MockDatabase keyed by the entry's key.
 */
module Totals {
  import opened Wrappers
  import opened Records
  import opened Money
  import opened MockDatabase

  /** One key and value of the totals map. */
  datatype Entry = Entry(key: string, total: int)

  function EntryKey(e: Entry): string { e.key }

  /** `map.get(key) ?? 0`. */
  function GetOrZero(t: seq<Entry>, key: string): int {
    var found := Lookup(t, EntryKey, key);
    if found.Some? then found.value.total else 0
  }

  /** `totals.set(c, (totals.get(c) ?? 0) + amount)` for one expense. */
  function Add(t: seq<Entry>, e: Expense): seq<Entry> {
    Upsert(t, EntryKey, Entry(e.categoryId, GetOrZero(t, e.categoryId) + e.amountCents))
  }

  /** The amounts of a list of expenses. */
  function Amounts(es: seq<Expense>): (r: seq<int>)
    ensures |r| == |es| && forall i :: 0 <= i < |es| ==> r[i] == es[i].amountCents
  {
    seq(|es|, i requires 0 <= i < |es| => es[i].amountCents)
  }

  /** The expenses of one category, in their order. */
  function OfCategory(es: seq<Expense>, categoryId: string): seq<Expense> {
    Filter(es, WhereEquals(ExpenseCategory, categoryId))
  }

  /** The reference total of a category: the sum of the amounts of its expenses. */
  function CategoryTotal(es: seq<Expense>, categoryId: string): int {
    Sum(Amounts(OfCategory(es, categoryId)))
  }

  /** The categories of a list of expenses, each once, in order of first appearance. */
  function CategoriesInOrder(es: seq<Expense>): (r: seq<string>)
    ensures forall i, j :: 0 <= i < j < |r| ==> r[i] != r[j]
  {
    if es == [] then []
    else
      var init := es[..|es| - 1];
      var c := es[|es| - 1].categoryId;
      var d := CategoriesInOrder(init);
      assert forall i :: 0 <= i < |init| ==> init[i] == es[i];
      if c in d then d else d + [c]
  }

  /** A category is listed exactly when some expense has it. */
  lemma {:induction false} CategoriesInOrderMembers(es: seq<Expense>, c: string)
    ensures c in CategoriesInOrder(es) <==> exists i :: 0 <= i < |es| && es[i].categoryId == c
  {
    if es != [] {
      var init := es[..|es| - 1];
      CategoriesInOrderMembers(init, c);
      assert forall i :: 0 <= i < |init| ==> init[i] == es[i];
    }
  }

  /** The totals map after the loop, as a definition: each category once, with its reference total. */
  function TotalsOf(es: seq<Expense>): (t: seq<Entry>)
    ensures |t| == |CategoriesInOrder(es)|
    ensures forall i :: 0 <= i < |t| ==> t[i] == Entry(CategoriesInOrder(es)[i], CategoryTotal(es, CategoriesInOrder(es)[i]))
  {
    var d := CategoriesInOrder(es);
    seq(|d|, i requires 0 <= i < |d| => Entry(d[i], CategoryTotal(es, d[i])))
  }

  lemma {:induction false} AmountsAppend(a: seq<Expense>, b: seq<Expense>)
    ensures Amounts(a + b) == Amounts(a) + Amounts(b)
  {
  }

  /** One more expense adds its amount to its own category and to no other. */
  lemma {:induction false} CategoryTotalStep(es: seq<Expense>, e: Expense, c: string)
    ensures CategoryTotal(es + [e], c) == CategoryTotal(es, c) + (if e.categoryId == c then e.amountCents else 0)
  {
    var p := WhereEquals(ExpenseCategory, c);
    FilterAppend(es, [e], p);
    assert Filter([e], p) == (if p(e) then [e] else []) + Filter([e][1..], p);
    AmountsAppend(Filter(es, p), Filter([e], p));
    SumAppend(Amounts(Filter(es, p)), Amounts(Filter([e], p)));
  }

  /** A category no expense has totals 0. */
  lemma {:induction false} CategoryTotalAbsent(es: seq<Expense>, c: string)
    requires forall i :: 0 <= i < |es| ==> es[i].categoryId != c
    ensures OfCategory(es, c) == [] && CategoryTotal(es, c) == 0
  {
    var f := OfCategory(es, c);
    if f != [] {
      FilterMembers(es, WhereEquals(ExpenseCategory, c), f[0]);
    }
    assert Amounts(f) == [];
  }

  /** One pass of the loop body turns the totals of a prefix into the totals of the longer prefix. */
  lemma {:induction false} TotalsStep(es: seq<Expense>, e: Expense)
    ensures Add(TotalsOf(es), e) == TotalsOf(es + [e])
  {
    CategoriesInOrderStep(es, e);
    if e.categoryId in CategoriesInOrder(es) {
      TotalsStepSeen(es, e);
    } else {
      TotalsStepNew(es, e);
    }
  }

  lemma CategoriesInOrderStep(es: seq<Expense>, e: Expense)
    ensures CategoriesInOrder(es + [e]) ==
      if e.categoryId in CategoriesInOrder(es) then CategoriesInOrder(es) else CategoriesInOrder(es) + [e.categoryId]
  {
    var es' := es + [e];
    assert es'[..|es'| - 1] == es;
  }

  /** The step for a category seen before: its entry is overwritten in place. */
  lemma {:induction false} TotalsStepSeen(es: seq<Expense>, e: Expense)
    requires e.categoryId in CategoriesInOrder(es)
    requires CategoriesInOrder(es + [e]) == CategoriesInOrder(es)
    ensures Add(TotalsOf(es), e) == TotalsOf(es + [e])
  {
    var t, t' := TotalsOf(es), TotalsOf(es + [e]);
    var k := SeenAt(es, e.categoryId);
    TotalsAfterSeen(es, e, k, t, t');
    AddExisting(t, e, k);
  }

  /** A category already seen has its entry at its own position in the totals. */
  lemma SeenAt(es: seq<Expense>, c: string) returns (k: int)
    requires c in CategoriesInOrder(es)
    ensures 0 <= k < |CategoriesInOrder(es)| && CategoriesInOrder(es)[k] == c
    ensures IndexOfKey(TotalsOf(es), EntryKey, c) == k
  {
    var t := TotalsOf(es);
    var d := CategoriesInOrder(es);
    k :| 0 <= k < |d| && d[k] == c;
    assert EntryKey(t[k]) == c;
    IndexOfFirstKey(t, EntryKey, k);
  }

  /** `set` on a key already in the map overwrites its entry in place. */
  lemma AddExisting(t: seq<Entry>, e: Expense, k: int)
    requires 0 <= k < |t| && IndexOfKey(t, EntryKey, e.categoryId) == k
    ensures Add(t, e) == t[k := Entry(e.categoryId, t[k].total + e.amountCents)]
  {
    SetExisting(t, e.categoryId, e.amountCents, k);
  }

  lemma SetExisting(t: seq<Entry>, c: string, amount: int, k: int)
    requires 0 <= k < |t| && IndexOfKey(t, EntryKey, c) == k
    ensures Upsert(t, EntryKey, Entry(c, GetOrZero(t, c) + amount)) == t[k := Entry(c, t[k].total + amount)]
  {
  }

  /** `set` on a new key appends its entry. */
  lemma AddNew(t: seq<Entry>, e: Expense)
    requires forall j :: 0 <= j < |t| ==> EntryKey(t[j]) != e.categoryId
    ensures Add(t, e) == t + [Entry(e.categoryId, e.amountCents)]
  {
  }

  lemma {:induction false} TotalsAfterSeen(es: seq<Expense>, e: Expense, k: int, t: seq<Entry>, t': seq<Entry>)
    requires 0 <= k < |CategoriesInOrder(es)| && CategoriesInOrder(es)[k] == e.categoryId
    requires CategoriesInOrder(es + [e]) == CategoriesInOrder(es)
    requires t == TotalsOf(es) && t' == TotalsOf(es + [e])
    ensures t[k := Entry(e.categoryId, t[k].total + e.amountCents)] == t'
  {
    var d := CategoriesInOrder(es);
    var u := t[k := Entry(e.categoryId, t[k].total + e.amountCents)];
    assert |u| == |t'|;
    forall j | 0 <= j < |u|
      ensures u[j] == t'[j]
    {
      CategoryTotalStep(es, e, d[j]);
      if j != k {
        assert d[j] != e.categoryId;
      }
    }
  }

  /** The step for a new category: its entry is appended. */
  lemma {:induction false} TotalsStepNew(es: seq<Expense>, e: Expense)
    requires e.categoryId !in CategoriesInOrder(es)
    requires CategoriesInOrder(es + [e]) == CategoriesInOrder(es) + [e.categoryId]
    ensures Add(TotalsOf(es), e) == TotalsOf(es + [e])
  {
    var t := TotalsOf(es);
    var c := e.categoryId;
    AddNew(t, e);
    CategoriesInOrderMembers(es, c);
    CategoryTotalAbsent(es, c);
    CategoryTotalStep(es, e, c);
    TotalsAfterNew(es, e, t + [Entry(c, e.amountCents)]);
  }

  lemma {:induction false} TotalsAfterNew(es: seq<Expense>, e: Expense, u: seq<Entry>)
    requires CategoriesInOrder(es + [e]) == CategoriesInOrder(es) + [e.categoryId]
    requires e.categoryId !in CategoriesInOrder(es)
    requires CategoryTotal(es + [e], e.categoryId) == e.amountCents
    requires u == TotalsOf(es) + [Entry(e.categoryId, e.amountCents)]
    ensures u == TotalsOf(es + [e])
  {
    var d := CategoriesInOrder(es);
    var t' := TotalsOf(es + [e]);
    assert |u| == |t'|;
    forall j | 0 <= j < |u|
      ensures u[j] == t'[j]
    {
      if j < |d| {
        CategoryTotalStep(es, e, d[j]);
        assert d[j] != e.categoryId;
      }
    }
  }

  /** The loop as a left fold of `Add` over the expenses. */
  function Accumulated(es: seq<Expense>): seq<Entry> {
    if es == [] then [] else Add(Accumulated(es[..|es| - 1]), es[|es| - 1])
  }

  lemma AccumulatedStep(es: seq<Expense>, i: nat)
    requires i < |es|
    ensures Accumulated(es[..i + 1]) == Add(Accumulated(es[..i]), es[i])
  {
    assert es[..i + 1][..i] == es[..i];
  }

  lemma AccumulatedAll(es: seq<Expense>)
    ensures Accumulated(es[..|es|]) == Accumulated(es)
  {
    assert es[..|es|] == es;
  }

  /** The fold computes the reference totals. */
  lemma {:induction false} AccumulatedIsTotals(es: seq<Expense>)
    ensures Accumulated(es) == TotalsOf(es)
  {
    if es != [] {
      AccumulatedIsTotals(es[..|es| - 1]);
      TotalsStepLast(es);
    }
  }

  lemma {:induction false} TotalsStepLast(es: seq<Expense>)
    requires es != []
    ensures Add(TotalsOf(es[..|es| - 1]), es[|es| - 1]) == TotalsOf(es)
  {
    var init, e := es[..|es| - 1], es[|es| - 1];
    assert es == init + [e];
    TotalsStep(init, e);
  }

  /** The loop over the expenses that fills the totals map. */
  method AccumulateTotals(es: seq<Expense>) returns (t: seq<Entry>)
    ensures t == TotalsOf(es)
  {
    t := [];
    var i := 0;
    while i < |es|
      invariant 0 <= i <= |es|
      invariant t == Accumulated(es[..i])
    {
      AccumulatedStep(es, i);
      t := Add(t, es[i]);
      i := i + 1;
    }
    AccumulatedAll(es);
    AccumulatedIsTotals(es);
  }

  /** `totals.get(c) ?? 0` after the loop is the category's reference total. */
  lemma {:induction false} GetOrZeroOfTotals(es: seq<Expense>, c: string)
    ensures GetOrZero(TotalsOf(es), c) == CategoryTotal(es, c)
  {
    var t := TotalsOf(es);
    var d := CategoriesInOrder(es);
    if c in d {
      var k :| 0 <= k < |d| && d[k] == c;
      assert EntryKey(t[k]) == c;
      var found := Lookup(t, EntryKey, c);
      assert found.Some?;
      var i :| 0 <= i < |t| && t[i] == found.value;
      assert d[i] == c;
    } else {
      CategoriesInOrderMembers(es, c);
      CategoryTotalAbsent(es, c);
    }
  }

  /** Totals of non-negative amounts are non-negative. */
  lemma {:induction false} CategoryTotalNonNegative(es: seq<Expense>, c: string)
    requires forall i :: 0 <= i < |es| ==> es[i].amountCents >= 0
    ensures CategoryTotal(es, c) >= 0
  {
    var f := OfCategory(es, c);
    forall i | 0 <= i < |f| ensures Amounts(f)[i] >= 0 {
      assert f[i] in es;
    }
    SumNonNegative(Amounts(f));
  }
}
