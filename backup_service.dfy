/**
 * Backup and restore (src/services/backup.ts) over the mock database: export of all four
 * tables through their schemas, clearing the store (optionally keeping settings), and import
 * of a validated payload in replace or merge mode, with or without the existing settings.
 *
 * The four tables together are a `Store` value; each method states the store it leaves as a
 * function of the store it found.  `transaction` runs its callback in place (the mock never
 * rolls back), so the replace-mode clear and the writes that follow are plain steps in order.
 */
module BackupService {
  import opened Wrappers
  import opened Json
  import opened Records
  import opened Schemas
  import opened MockDatabase

  datatype Store = Store(categories: seq<Category>, budgets: seq<Budget>, expenses: seq<Expense>, settings: seq<Setting>)

  /** The contents of the four tables. */
  function StoreOf(db: Database): Store
    reads db, db.categories, db.budgets, db.expenses, db.settings
  {
    Store(db.categories.data, db.budgets.data, db.expenses.data, db.settings.data)
  }

  // ------------------------------------------------------------ exportBackup

  /** `exportBackup()`: version 1, the clock's timestamp, and every record read through its schema. */
  function ExportResult(s: Store, now: string): (r: Outcome<BackupPayload>)
    ensures r.Success? <==>
      && (forall i :: 0 <= i < |s.categories| ==> ToCategory(s.categories[i]).Success?)
      && (forall i :: 0 <= i < |s.budgets| ==> ToBudget(s.budgets[i]).Success?)
      && (forall i :: 0 <= i < |s.expenses| ==> ToExpense(s.expenses[i]).Success?)
    ensures r.Success? ==>
      && r.value.version == 1 && r.value.exportedAt == now
      && |r.value.categories| == |s.categories|
      && (forall i :: 0 <= i < |s.categories| ==> r.value.categories[i] == ToCategory(s.categories[i]).value)
      && r.value.budgets == s.budgets && r.value.expenses == s.expenses && r.value.settings == s.settings
  {
    var categories :- TryMap(s.categories, ToCategory);
    var budgets :- TryMap(s.budgets, ToBudget);
    var expenses :- TryMap(s.expenses, ToExpense);
    // the settings schema accepts every stored setting as it is
    var settings := TryMap(s.settings, ToSetting).value;
    Success(BackupPayload(1, now, categories, budgets, expenses, settings))
  }

  method ExportBackup(db: Database, now: string) returns (r: Outcome<BackupPayload>)
    requires db.Valid()
    ensures r == ExportResult(StoreOf(db), now)
  {
    var categories := db.categories.ToArray();
    var budgets := db.budgets.ToArray();
    var expenses := db.expenses.ToArray();
    var settings := db.settings.ToArray();
    r := ExportResult(Store(categories, budgets, expenses, settings), now);
  }

  // ------------------------------------------------------------ clearAllData

  /** `clearAllData({ keepSettings })`. */
  function ClearAll(s: Store, keepSettings: bool): (r: Store)
    ensures r.categories == [] && r.budgets == [] && r.expenses == []
    ensures r.settings == if keepSettings then s.settings else []
  {
    Store([], [], [], if keepSettings then s.settings else [])
  }

  method ClearAllData(db: Database, keepSettings: Option<bool>)
    requires db.Valid()
    modifies db.categories, db.budgets, db.expenses, db.settings
    ensures StoreOf(db) == ClearAll(old(StoreOf(db)), keepSettings == Some(true))
  {
    db.categories.Clear();
    db.budgets.Clear();
    db.expenses.Clear();
    if keepSettings != Some(true) {
      db.settings.Clear();
    }
  }

  // ------------------------------------------------------------ importBackup

  datatype ImportEffect = ImportEffect(result: Outcome<()>, store: Store)

  function CategoryIds(cs: seq<Category>): seq<string> { seq(|cs|, i requires 0 <= i < |cs| => cs[i].id) }
  function BudgetIds(bs: seq<Budget>): seq<string> { seq(|bs|, i requires 0 <= i < |bs| => bs[i].id) }
  function ExpenseIds(es: seq<Expense>): seq<string> { seq(|es|, i requires 0 <= i < |es| => es[i].id) }

  /** The writes inside the import transaction, on the store left by the optional clear. */
  function ImportWrites(s: Store, data: BackupPayload, merge: bool, keepSettings: bool): Store {
    var cleared := if merge then
        Store(WithoutKeys(s.categories, CategoryKey, CategoryIds(data.categories)),
              WithoutKeys(s.budgets, BudgetKey, BudgetIds(data.budgets)),
              WithoutKeys(s.expenses, ExpenseKey, ExpenseIds(data.expenses)),
              s.settings)
      else s;
    var settings := if keepSettings then cleared.settings else [];
    Store(UpsertAll(cleared.categories, CategoryKey, data.categories),
          UpsertAll(cleared.budgets, BudgetKey, data.budgets),
          UpsertAll(cleared.expenses, ExpenseKey, data.expenses),
          UpsertAll(settings, SettingKey, data.settings))
  }

  /** `importBackup(payload, { merge, keepExistingSettings })`. */
  function ImportBackupEffect(s: Store, payload: Json, merge: Option<bool>, keepExistingSettings: Option<bool>): (w: ImportEffect)
    ensures ParseBackup(payload).Failure? ==> w.result.Failure? && w.store == s
    ensures ParseBackup(payload).Success? ==> w.result == Success(())
  {
    match ParseBackup(payload)
    case Failure(e) => ImportEffect(Failure(e), s)
    case Success(data) =>
      var keep := keepExistingSettings == Some(true);
      var merging := merge == Some(true);
      var start := if merging then s else ClearAll(s, keep);
      ImportEffect(Success(()), ImportWrites(start, data, merging, keep))
  }

  /** Replace mode: every id reads as the payload's last record with it, and nothing else survives. */
  lemma ImportReplaceContents(s: Store, payload: Json, merge: Option<bool>, keep: Option<bool>, id: string)
    requires ParseBackup(payload).Success? && merge != Some(true)
    ensures var data := ParseBackup(payload).value;
      var t := ImportBackupEffect(s, payload, merge, keep).store;
      && Lookup(t.categories, CategoryKey, id) == LastWithKey(data.categories, CategoryKey, id)
      && Lookup(t.budgets, BudgetKey, id) == LastWithKey(data.budgets, BudgetKey, id)
      && Lookup(t.expenses, ExpenseKey, id) == LastWithKey(data.expenses, ExpenseKey, id)
  {
    var data := ParseBackup(payload).value;
    LookupUpsertAll([], CategoryKey, data.categories, id);
    LookupUpsertAll([], BudgetKey, data.budgets, id);
    LookupUpsertAll([], ExpenseKey, data.expenses, id);
  }

  /** Replace mode with distinct ids in the payload: the three tables are exactly the payload arrays. */
  lemma ImportReplaceExact(s: Store, payload: Json, merge: Option<bool>, keep: Option<bool>)
    requires ParseBackup(payload).Success? && merge != Some(true)
    requires var data := ParseBackup(payload).value;
      UniqueKeys(data.categories, CategoryKey) && UniqueKeys(data.budgets, BudgetKey) &&
      UniqueKeys(data.expenses, ExpenseKey)
    ensures var data := ParseBackup(payload).value;
      var t := ImportBackupEffect(s, payload, merge, keep).store;
      t.categories == data.categories && t.budgets == data.budgets && t.expenses == data.expenses
  {
    var data := ParseBackup(payload).value;
    UpsertAllIntoEmpty(CategoryKey, data.categories);
    UpsertAllIntoEmpty(BudgetKey, data.budgets);
    UpsertAllIntoEmpty(ExpenseKey, data.expenses);
  }

  /** An id list of a table holds exactly the keys some record of it has. */
  lemma KeysMember<T(!new)>(records: seq<T>, keyOf: T -> string, ids: seq<string>, id: string)
    requires |ids| == |records| && forall i :: 0 <= i < |records| ==> ids[i] == keyOf(records[i])
    ensures id in ids <==> LastWithKey(records, keyOf, id).Some?
  {
    if id in ids {
      var j :| 0 <= j < |ids| && ids[j] == id;
      assert keyOf(records[j]) == id;
    }
    var last := LastWithKey(records, keyOf, id);
    if last.Some? {
      var j :| 0 <= j < |records| && records[j] == last.value;
      assert ids[j] == id;
    }
  }

  lemma IdsMembers(data: BackupPayload, id: string)
    ensures id in CategoryIds(data.categories) <==> LastWithKey(data.categories, CategoryKey, id).Some?
    ensures id in BudgetIds(data.budgets) <==> LastWithKey(data.budgets, BudgetKey, id).Some?
    ensures id in ExpenseIds(data.expenses) <==> LastWithKey(data.expenses, ExpenseKey, id).Some?
  {
    KeysMember(data.categories, CategoryKey, CategoryIds(data.categories), id);
    KeysMember(data.budgets, BudgetKey, BudgetIds(data.budgets), id);
    KeysMember(data.expenses, ExpenseKey, ExpenseIds(data.expenses), id);
  }

  /** Merge mode: an id of the payload reads as the payload's record, any other id as before. */
  lemma ImportMergeContents(s: Store, payload: Json, keep: Option<bool>, id: string)
    requires ParseBackup(payload).Success?
    ensures var data := ParseBackup(payload).value;
      var t := ImportBackupEffect(s, payload, Some(true), keep).store;
      && Lookup(t.categories, CategoryKey, id) ==
           (if LastWithKey(data.categories, CategoryKey, id).Some? then LastWithKey(data.categories, CategoryKey, id)
            else Lookup(s.categories, CategoryKey, id))
      && Lookup(t.budgets, BudgetKey, id) ==
           (if LastWithKey(data.budgets, BudgetKey, id).Some? then LastWithKey(data.budgets, BudgetKey, id)
            else Lookup(s.budgets, BudgetKey, id))
      && Lookup(t.expenses, ExpenseKey, id) ==
           (if LastWithKey(data.expenses, ExpenseKey, id).Some? then LastWithKey(data.expenses, ExpenseKey, id)
            else Lookup(s.expenses, ExpenseKey, id))
  {
    var data := ParseBackup(payload).value;
    IdsMembers(data, id);
    LookupWithoutKeys(s.categories, CategoryKey, CategoryIds(data.categories), id);
    LookupUpsertAll(WithoutKeys(s.categories, CategoryKey, CategoryIds(data.categories)), CategoryKey, data.categories, id);
    LookupWithoutKeys(s.budgets, BudgetKey, BudgetIds(data.budgets), id);
    LookupUpsertAll(WithoutKeys(s.budgets, BudgetKey, BudgetIds(data.budgets)), BudgetKey, data.budgets, id);
    LookupWithoutKeys(s.expenses, ExpenseKey, ExpenseIds(data.expenses), id);
    LookupUpsertAll(WithoutKeys(s.expenses, ExpenseKey, ExpenseIds(data.expenses)), ExpenseKey, data.expenses, id);
  }

  /**
   * Settings, in either mode: without keepExistingSettings a key reads as the payload's last
   * setting with it (or is absent); with it, payload keys overwrite and other keys survive.
   */
  lemma ImportSettings(s: Store, payload: Json, merge: Option<bool>, keep: Option<bool>, key: string)
    requires ParseBackup(payload).Success?
    ensures var data := ParseBackup(payload).value;
      var t := ImportBackupEffect(s, payload, merge, keep).store;
      Lookup(t.settings, SettingKey, key) ==
        if LastWithKey(data.settings, SettingKey, key).Some? then LastWithKey(data.settings, SettingKey, key)
        else if keep == Some(true) then Lookup(s.settings, SettingKey, key)
        else None
  {
    var data := ParseBackup(payload).value;
    var before := if keep == Some(true) then s.settings else [];
    LookupUpsertAll(before, SettingKey, data.settings, key);
  }

  lemma NormalizedIdsUnique(cs: seq<Category>)
    requires UniqueKeys(cs, CategoryKey) && forall i :: 0 <= i < |cs| ==> ToCategory(cs[i]).Success?
    ensures UniqueKeys(TryMap(cs, ToCategory).value, CategoryKey)
  {
    var r := TryMap(cs, ToCategory).value;
    assert forall i :: 0 <= i < |cs| ==> r[i].id == cs[i].id;
  }

  /** With no options, an import that parses replaces all four tables by bulk puts into empty ones. */
  lemma ImportWithoutOptions(target: Store, payload: Json, p: BackupPayload)
    requires ParseBackup(payload) == Success(p)
    ensures ImportBackupEffect(target, payload, None, None) ==
      ImportEffect(Success(()), Store(UpsertAll([], CategoryKey, p.categories), UpsertAll([], BudgetKey, p.budgets),
                                      UpsertAll([], ExpenseKey, p.expenses), UpsertAll([], SettingKey, p.settings)))
  {
  }

  /**
   * Round trip: with keys unique in every table (as puts keep them) and a valid clock, the JSON
   * of an export, imported with no options into any store, restores exactly the exported
   * tables: categories as their schema normalises them, the rest as they were.
   */
  lemma ExportImportRoundTrip(s: Store, target: Store, now: string)
    requires ExportResult(s, now).Success? && IsIsoDateTime(now)
    requires UniqueKeys(s.categories, CategoryKey) && UniqueKeys(s.budgets, BudgetKey)
    requires UniqueKeys(s.expenses, ExpenseKey) && UniqueKeys(s.settings, SettingKey)
    ensures var p := ExportResult(s, now).value;
      ImportBackupEffect(target, BackupJson(p), None, None) ==
        ImportEffect(Success(()), Store(p.categories, s.budgets, s.expenses, s.settings))
  {
    var p := ExportResult(s, now).value;
    forall i | 0 <= i < |p.categories| ensures ToCategory(p.categories[i]) == Success(p.categories[i]) {
      ToCategoryIdempotent(s.categories[i]);
    }
    BackupRoundTrip(p);
    ImportWithoutOptions(target, BackupJson(p), p);
    NormalizedIdsUnique(s.categories);
    UpsertAllIntoEmpty(CategoryKey, p.categories);
    UpsertAllIntoEmpty(BudgetKey, p.budgets);
    UpsertAllIntoEmpty(ExpenseKey, p.expenses);
    UpsertAllIntoEmpty(SettingKey, p.settings);
  }

  method ImportBackup(db: Database, payload: Json, merge: Option<bool>, keepExistingSettings: Option<bool>)
    returns (r: Outcome<()>)
    requires db.Valid()
    modifies db.categories, db.budgets, db.expenses, db.settings
    ensures r == ImportBackupEffect(old(StoreOf(db)), payload, merge, keepExistingSettings).result
    ensures StoreOf(db) == ImportBackupEffect(old(StoreOf(db)), payload, merge, keepExistingSettings).store
  {
    var parsed := ParseBackup(payload);
    if parsed.Failure? {
      return Failure(parsed.error);
    }
    var data := parsed.value;
    if merge != Some(true) {
      ClearAllData(db, Some(keepExistingSettings == Some(true)));
    }
    WriteBackup(db, data, merge == Some(true), keepExistingSettings == Some(true));
    r := Success(());
  }

  /** The writes of the import transaction: drop the payload ids when merging, then bulk puts. */
  method WriteBackup(db: Database, data: BackupPayload, merge: bool, keepSettings: bool)
    requires db.Valid()
    modifies db.categories, db.budgets, db.expenses, db.settings
    ensures StoreOf(db) == ImportWrites(old(StoreOf(db)), data, merge, keepSettings)
  {
    if merge {
      db.categories.BulkDelete(CategoryIds(data.categories));
      db.budgets.BulkDelete(BudgetIds(data.budgets));
      db.expenses.BulkDelete(ExpenseIds(data.expenses));
    }
    db.categories.BulkPut(data.categories);
    db.budgets.BulkPut(data.budgets);
    db.expenses.BulkPut(data.expenses);
    if !keepSettings {
      db.settings.Clear();
    }
    db.settings.BulkPut(data.settings);
  }
}
