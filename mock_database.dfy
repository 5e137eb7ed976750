/**
 * The keyed record store of src/test/utils/mockDatabase.ts: four tables, each an array of
 * records in insertion order, keyed by `id` (settings: by `key`).
 *
 * The specification functions describe a table's contents as a sequence; the `Table` class
 * holds that sequence in a field and its methods update it as the mock does.  A collection
 * (`toCollection`, `where(field).equals(value)`, `.and(filter)`) is the predicate it filters
 * by; its `toArray`, `first` and `count` read the table when they are called.
 */
module MockDatabase {
  import opened Wrappers
  import opened Records

  // ------------------------------------------------------------ sequences

  /** `records.filter(p)`. */
  function Filter<T(==,!new)>(s: seq<T>, p: T -> bool): (r: seq<T>)
    ensures |r| <= |s|
    ensures forall i :: 0 <= i < |r| ==> p(r[i])
    ensures forall i :: 0 <= i < |r| ==> r[i] in s
  {
    if s == [] then []
    else
      var rest := Filter(s[1..], p);
      assert forall i :: 0 <= i < |rest| ==> rest[i] in s;
      (if p(s[0]) then [s[0]] else []) + rest
  }

  /** What `filter` keeps: exactly the records of the input that pass. */
  lemma {:induction false} FilterMembers<T(!new)>(s: seq<T>, p: T -> bool, x: T)
    ensures x in Filter(s, p) <==> x in s && p(x)
  {
    if s != [] {
      FilterMembers(s[1..], p, x);
      assert s == [s[0]] + s[1..];
    }
  }

  /** Filtering keeps the records in their order: it distributes over concatenation. */
  lemma {:induction false} FilterAppend<T(!new)>(a: seq<T>, b: seq<T>, p: T -> bool)
    ensures Filter(a + b, p) == Filter(a, p) + Filter(b, p)
  {
    if a == [] {
      assert a + b == b;
    } else {
      assert (a + b)[0] == a[0] && (a + b)[1..] == a[1..] + b;
      FilterAppend(a[1..], b, p);
    }
  }

  /** A filter every record passes changes nothing. */
  lemma {:induction false} FilterAll<T(!new)>(s: seq<T>, p: T -> bool)
    requires forall i :: 0 <= i < |s| ==> p(s[i])
    ensures Filter(s, p) == s
  {
    if s != [] {
      FilterAll(s[1..], p);
      assert s == [s[0]] + s[1..];
    }
  }

  /** Filtering by `p` and then by `q` is filtering by both. */
  lemma {:induction false} FilterFilter<T(!new)>(s: seq<T>, p: T -> bool, q: T -> bool)
    ensures Filter(Filter(s, p), q) == Filter(s, And(p, q))
  {
    if s != [] {
      FilterFilter(s[1..], p, q);
      var head := if p(s[0]) then [s[0]] else [];
      FilterAppend(head, Filter(s[1..], p), q);
    }
  }

  /** The `.and(next)` combinator of a collection. */
  function And<T(==,!new)>(p: T -> bool, q: T -> bool): (r: T -> bool)
    ensures forall x :: r(x) == (p(x) && q(x))
  {
    x => p(x) && q(x)
  }

  /** `first()` of a collection: the earliest record the predicate accepts. */
  function First<T(==,!new)>(s: seq<T>, p: T -> bool): (r: Option<T>)
    ensures r.None? <==> forall i :: 0 <= i < |s| ==> !p(s[i])
    ensures r.Some? ==>
      exists i :: 0 <= i < |s| && s[i] == r.value && p(s[i]) && (forall j :: 0 <= j < i ==> !p(s[j]))
  {
    if s == [] then None
    else if p(s[0]) then Some(s[0])
    else
      var r := First(s[1..], p);
      assert forall i :: 1 <= i < |s| ==> s[i] == s[1..][i - 1];
      if r.Some? then
        var i :| 0 <= i < |s[1..]| && s[1..][i] == r.value && p(s[1..][i]) &&
          (forall j :: 0 <= j < i ==> !p(s[1..][j]));
        assert s[i + 1] == r.value;
        r
      else r
  }

  lemma {:induction false} FirstIsHeadOfFilter<T(!new)>(s: seq<T>, p: T -> bool)
    ensures First(s, p) == if Filter(s, p) == [] then None else Some(Filter(s, p)[0])
  {
    if s != [] && !p(s[0]) {
      FirstIsHeadOfFilter(s[1..], p);
    }
  }

  // ------------------------------------------------------------ keyed access

  /** `findIndex((item) => getKey(item) === key)`. */
  function IndexOfKey<T(==,!new)>(s: seq<T>, keyOf: T -> string, key: string): (i: int)
    ensures -1 <= i < |s|
    ensures i >= 0 ==> keyOf(s[i]) == key
    ensures forall j :: 0 <= j < |s| && (i == -1 || j < i) ==> keyOf(s[j]) != key
  {
    if s == [] then -1
    else if keyOf(s[0]) == key then 0
    else
      var k := IndexOfKey(s[1..], keyOf, key);
      assert forall j :: 1 <= j < |s| ==> s[j] == s[1..][j - 1];
      if k < 0 then -1 else k + 1
  }

  /** The first record with its key is found at its own position. */
  lemma IndexOfFirstKey<T(!new)>(s: seq<T>, keyOf: T -> string, k: int)
    requires 0 <= k < |s| && forall j :: 0 <= j < k ==> keyOf(s[j]) != keyOf(s[k])
    ensures IndexOfKey(s, keyOf, keyOf(s[k])) == k
  {
  }

  /** `get(key)`: the first record with that key, or undefined. */
  function Lookup<T(==,!new)>(s: seq<T>, keyOf: T -> string, key: string): (r: Option<T>)
    ensures r.None? <==> forall j :: 0 <= j < |s| ==> keyOf(s[j]) != key
    ensures r.Some? ==> r.value in s && keyOf(r.value) == key
  {
    var i := IndexOfKey(s, keyOf, key);
    if i >= 0 then Some(s[i]) else None
  }

  /** `put(record)`: overwrite the record with the same key where it stands, or append. */
  function Upsert<T(==,!new)>(s: seq<T>, keyOf: T -> string, record: T): (r: seq<T>)
    ensures var i := IndexOfKey(s, keyOf, keyOf(record));
      if i >= 0 then r == s[i := record] else r == s + [record]
  {
    var i := IndexOfKey(s, keyOf, keyOf(record));
    if i >= 0 then s[i := record] else s + [record]
  }

  /** `bulkPut(records)`: one `put` after the other, from left to right. */
  function UpsertAll<T(==,!new)>(s: seq<T>, keyOf: T -> string, records: seq<T>): seq<T> {
    if records == [] then s
    else Upsert(UpsertAll(s, keyOf, records[..|records| - 1]), keyOf, records[|records| - 1])
  }

  /** `delete(key)`. */
  function Without<T(==,!new)>(s: seq<T>, keyOf: T -> string, key: string): seq<T> {
    Filter(s, (x: T) => keyOf(x) != key)
  }

  /** `bulkDelete(keys)`. */
  function WithoutKeys<T(==,!new)>(s: seq<T>, keyOf: T -> string, keys: seq<string>): seq<T> {
    Filter(s, (x: T) => keyOf(x) !in keys)
  }

  /** No two records of the table share a key. */
  predicate UniqueKeys<T(==,!new)>(s: seq<T>, keyOf: T -> string) {
    forall i, j :: 0 <= i < j < |s| ==> keyOf(s[i]) != keyOf(s[j])
  }

  /** The last record of `records` with the given key: the one a left-to-right `bulkPut` leaves. */
  function LastWithKey<T(==,!new)>(records: seq<T>, keyOf: T -> string, key: string): (r: Option<T>)
    ensures r.None? <==> forall j :: 0 <= j < |records| ==> keyOf(records[j]) != key
    ensures r.Some? ==> r.value in records && keyOf(r.value) == key
  {
    if records == [] then None
    else
      var last := records[|records| - 1];
      var init := records[..|records| - 1];
      assert records == init + [last];
      if keyOf(last) == key then Some(last) else LastWithKey(init, keyOf, key)
  }

  // ------------------------------------------------------------ what the operations mean

  /** After a put, its key reads the new record. */
  lemma LookupUpsertSame<T(!new)>(s: seq<T>, keyOf: T -> string, record: T)
    ensures Lookup(Upsert(s, keyOf, record), keyOf, keyOf(record)) == Some(record)
  {
    var i := IndexOfKey(s, keyOf, keyOf(record));
    var r := Upsert(s, keyOf, record);
    if i < 0 {
      assert r[|s|] == record;
      assert forall j :: 0 <= j < |s| ==> r[j] == s[j];
    } else {
      assert forall j :: 0 <= j < i ==> r[j] == s[j];
      assert r[i] == record;
      assert IndexOfKey(r, keyOf, keyOf(record)) == i;
    }
  }

  /** A put leaves every other key as it was. */
  lemma LookupUpsertOther<T(!new)>(s: seq<T>, keyOf: T -> string, record: T, key: string)
    requires key != keyOf(record)
    ensures Lookup(Upsert(s, keyOf, record), keyOf, key) == Lookup(s, keyOf, key)
  {
    var r := Upsert(s, keyOf, record);
    var i := IndexOfKey(s, keyOf, key);
    var k := IndexOfKey(r, keyOf, key);
    assert |s| <= |r| && forall j :: 0 <= j < |s| ==> (keyOf(r[j]) == key <==> keyOf(s[j]) == key);
    if i >= 0 {
      assert k == i;
    } else {
      assert k == -1;
    }
  }

  /** A put keeps the keys of the table unique. */
  lemma UpsertKeepsUnique<T(!new)>(s: seq<T>, keyOf: T -> string, record: T)
    requires UniqueKeys(s, keyOf)
    ensures UniqueKeys(Upsert(s, keyOf, record), keyOf)
  {
  }

  /** Lookup after a left-to-right bulk put: the last record given for the key, else what was there. */
  lemma {:induction false} LookupUpsertAll<T(!new)>(s: seq<T>, keyOf: T -> string, records: seq<T>, key: string)
    ensures Lookup(UpsertAll(s, keyOf, records), keyOf, key) ==
      if LastWithKey(records, keyOf, key).Some? then LastWithKey(records, keyOf, key) else Lookup(s, keyOf, key)
  {
    if records != [] {
      var last := records[|records| - 1];
      LookupUpsertAll(s, keyOf, records[..|records| - 1], key);
      if keyOf(last) == key {
        LookupUpsertSame(UpsertAll(s, keyOf, records[..|records| - 1]), keyOf, last);
      } else {
        LookupUpsertOther(UpsertAll(s, keyOf, records[..|records| - 1]), keyOf, last, key);
      }
    }
  }

  lemma {:induction false} UpsertAllKeepsUnique<T(!new)>(s: seq<T>, keyOf: T -> string, records: seq<T>)
    requires UniqueKeys(s, keyOf)
    ensures UniqueKeys(UpsertAll(s, keyOf, records), keyOf)
  {
    if records != [] {
      UpsertAllKeepsUnique(s, keyOf, records[..|records| - 1]);
      UpsertKeepsUnique(UpsertAll(s, keyOf, records[..|records| - 1]), keyOf, records[|records| - 1]);
    }
  }

  /** Putting records with distinct keys one by one into an empty table stores exactly them, in order. */
  lemma {:induction false} UpsertAllIntoEmpty<T(!new)>(keyOf: T -> string, records: seq<T>)
    requires UniqueKeys(records, keyOf)
    ensures UpsertAll([], keyOf, records) == records
  {
    if records != [] {
      var init := records[..|records| - 1];
      var last := records[|records| - 1];
      assert UniqueKeys(init, keyOf);
      UpsertAllIntoEmpty(keyOf, init);
      assert forall j :: 0 <= j < |init| ==> keyOf(init[j]) != keyOf(last);
      assert records == init + [last];
    }
  }

  /** After delete(key) nothing has that key, and other keys read as before. */
  lemma LookupWithout<T(!new)>(s: seq<T>, keyOf: T -> string, key: string, other: string)
    ensures Lookup(Without(s, keyOf, key), keyOf, key).None?
    ensures other != key ==> Lookup(Without(s, keyOf, key), keyOf, other) == Lookup(s, keyOf, other)
  {
    var p := (x: T) => keyOf(x) != key;
    var r := Without(s, keyOf, key);
    forall j | 0 <= j < |r| ensures keyOf(r[j]) != key {
      assert p(r[j]);
    }
    if other != key {
      LookupFilterKeeps(s, keyOf, p, other);
    }
  }

  /** A filter that keeps every record of some key leaves that key's lookup alone. */
  lemma {:induction false} LookupFilterKeeps<T(!new)>(s: seq<T>, keyOf: T -> string, p: T -> bool, key: string)
    requires forall x :: keyOf(x) == key ==> p(x)
    ensures Lookup(Filter(s, p), keyOf, key) == Lookup(s, keyOf, key)
  {
    if s != [] {
      LookupFilterKeeps(s[1..], keyOf, p, key);
      var head := if p(s[0]) then [s[0]] else [];
      assert Filter(s, p) == head + Filter(s[1..], p);
      if keyOf(s[0]) != key {
        LookupSkip(head, Filter(s[1..], p), keyOf, key);
        LookupSkip([s[0]], s[1..], keyOf, key);
        assert [s[0]] + s[1..] == s;
      }
    }
  }

  /** Records of other keys in front do not change a lookup. */
  lemma LookupSkip<T(!new)>(a: seq<T>, b: seq<T>, keyOf: T -> string, key: string)
    requires forall j :: 0 <= j < |a| ==> keyOf(a[j]) != key
    ensures Lookup(a + b, keyOf, key) == Lookup(b, keyOf, key)
  {
    var i := IndexOfKey(a + b, keyOf, key);
    var k := IndexOfKey(b, keyOf, key);
    assert forall j :: 0 <= j < |b| ==> (a + b)[|a| + j] == b[j];
    if k >= 0 {
      assert i == |a| + k;
    } else {
      assert i == -1;
    }
  }

  /** Deleting an absent key changes nothing. */
  lemma WithoutAbsent<T(!new)>(s: seq<T>, keyOf: T -> string, key: string)
    requires Lookup(s, keyOf, key).None?
    ensures Without(s, keyOf, key) == s
  {
    FilterAll(s, (x: T) => keyOf(x) != key);
  }

  /** After bulkDelete(keys), exactly the listed keys are gone. */
  lemma LookupWithoutKeys<T(!new)>(s: seq<T>, keyOf: T -> string, keys: seq<string>, key: string)
    ensures Lookup(WithoutKeys(s, keyOf, keys), keyOf, key) == if key in keys then None else Lookup(s, keyOf, key)
  {
    var p := (x: T) => keyOf(x) !in keys;
    var r := WithoutKeys(s, keyOf, keys);
    if key in keys {
      forall j | 0 <= j < |r| ensures keyOf(r[j]) != key {
        assert p(r[j]);
      }
    } else {
      LookupFilterKeeps(s, keyOf, p, key);
    }
  }

  /** A delete keeps the keys unique. */
  lemma FilterKeepsUnique<T(!new)>(s: seq<T>, keyOf: T -> string, p: T -> bool)
    requires UniqueKeys(s, keyOf)
    ensures UniqueKeys(Filter(s, p), keyOf)
  {
    if s != [] {
      assert UniqueKeys(s[1..], keyOf);
      FilterKeepsUnique(s[1..], keyOf, p);
      var rest := Filter(s[1..], p);
      forall j | 0 <= j < |rest| ensures keyOf(rest[j]) != keyOf(s[0]) {
        assert rest[j] in s[1..];
      }
    }
  }

  // ------------------------------------------------------------ the table object

  /** `createTable(initial)`: the mutable `data` array of one table, with its key. */
  class Table<T(==,!new)> {
    const keyOf: T -> string
    var data: seq<T>

    constructor (keyOf: T -> string, initial: seq<T>)
      ensures this.keyOf == keyOf && data == initial
    {
      this.keyOf := keyOf;
      data := initial;
    }

    /** `toArray()` (and `toCollection().toArray()`). */
    method ToArray() returns (r: seq<T>)
      ensures r == data
    {
      r := data;
    }

    /** `findIndex` over the data by key. */
    method FindIndex(key: string) returns (i: int)
      ensures i == IndexOfKey(data, keyOf, key)
    {
      i := 0;
      while i < |data| && keyOf(data[i]) != key
        invariant 0 <= i <= |data|
        invariant IndexOfKey(data, keyOf, key) == -1 || i <= IndexOfKey(data, keyOf, key)
      {
        i := i + 1;
      }
      if i == |data| {
        i := -1;
      }
    }

    /** `get(key)`. */
    method Get(key: string) returns (r: Option<T>)
      ensures r == Lookup(data, keyOf, key)
      ensures r.Some? ==> keyOf(r.value) == key && r.value in data
    {
      var i := FindIndex(key);
      r := if i >= 0 then Some(data[i]) else None;
    }

    /** `put(record)`: returns the record's key. */
    method Put(record: T) returns (key: string)
      modifies this
      ensures key == keyOf(record)
      ensures data == Upsert(old(data), keyOf, record)
    {
      key := keyOf(record);
      var i := FindIndex(key);
      if i >= 0 {
        data := data[i := record];
      } else {
        data := data + [record];
      }
    }

    /** `bulkPut(records)`: a put for each record, in order. */
    method BulkPut(records: seq<T>)
      modifies this
      ensures data == UpsertAll(old(data), keyOf, records)
    {
      var i := 0;
      while i < |records|
        invariant 0 <= i <= |records|
        invariant data == UpsertAll(old(data), keyOf, records[..i])
      {
        assert records[..i + 1][..i] == records[..i];
        var _ := Put(records[i]);
        i := i + 1;
      }
      assert records[..i] == records;
    }

    /** `bulkDelete(keys)`. */
    method BulkDelete(keys: seq<string>)
      modifies this
      ensures data == WithoutKeys(old(data), keyOf, keys)
    {
      data := WithoutKeys(data, keyOf, keys);
    }

    /** `delete(key)`. */
    method Delete(key: string)
      modifies this
      ensures data == Without(old(data), keyOf, key)
    {
      data := Without(data, keyOf, key);
    }

    /** `clear()`. */
    method Clear()
      modifies this
      ensures data == []
    {
      data := [];
    }

    /** `count()`. */
    method Count() returns (n: nat)
      ensures n == |data|
    {
      n := |data|;
    }

    /** `toArray()` of the collection filtered by `p`. */
    method Select(p: T -> bool) returns (r: seq<T>)
      ensures r == Filter(data, p)
    {
      r := Filter(data, p);
    }

    /** `first()` of the collection filtered by `p`. */
    method SelectFirst(p: T -> bool) returns (r: Option<T>)
      ensures r == First(data, p)
    {
      var matching := Filter(data, p);
      FirstIsHeadOfFilter(data, p);
      r := if matching == [] then None else Some(matching[0]);
    }

    /** `count()` of the collection filtered by `p`. */
    method SelectCount(p: T -> bool) returns (n: nat)
      ensures n == |Filter(data, p)|
    {
      var matching := Filter(data, p);
      n := |matching|;
    }
  }

  /** `where(field).equals(value)` on a field read by `field`. */
  function WhereEquals<T(==,!new), V(==)>(field: T -> V, value: V): (p: T -> bool)
    ensures forall x :: p(x) <==> field(x) == value
  {
    x => field(x) == value
  }

  function ExpenseMonth(e: Expense): string { e.month }
  function ExpenseCategory(e: Expense): string { e.categoryId }
  function BudgetMonth(b: Budget): string { b.month }
  function BudgetCategory(b: Budget): string { b.categoryId }

  /**
   * `createMockDatabase(seed)`: the four tables.  `transaction(mode, ..., callback)` only
   * runs the callback, so the services below run their callbacks' statements in place.
   */
  class Database {
    const categories: Table<Category>
    const expenses: Table<Expense>
    const budgets: Table<Budget>
    const settings: Table<Setting>

    /** Every table is keyed as the schema of the database says. */
    ghost predicate Valid() {
      && categories.keyOf == CategoryKey
      && expenses.keyOf == ExpenseKey
      && budgets.keyOf == BudgetKey
      && settings.keyOf == SettingKey
    }

    constructor (seedCategories: seq<Category>, seedExpenses: seq<Expense>, seedBudgets: seq<Budget>,
                 seedSettings: seq<Setting>)
      ensures Valid()
      ensures fresh(categories) && fresh(expenses) && fresh(budgets) && fresh(settings)
      ensures categories.data == seedCategories && expenses.data == seedExpenses
      ensures budgets.data == seedBudgets && settings.data == seedSettings
    {
      categories := new Table(CategoryKey, seedCategories);
      expenses := new Table(ExpenseKey, seedExpenses);
      budgets := new Table(BudgetKey, seedBudgets);
      settings := new Table(SettingKey, seedSettings);
    }
  }
}
