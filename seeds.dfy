/**
 * First-run seeding (src/db/seeds.ts): unless the seed version is already recorded, put the
 * eight default categories into an empty categories table, write the default settings, and
 * record the seed version, so that seeding a second time changes nothing.
 */
module Seeds {
  import opened Wrappers
  import opened Json
  import opened Strings
  import opened Records
  import opened Schemas
  import opened MockDatabase

  const SeedVersionKey: string := "seed:version"
  /** The version number 1, as the JSON number a setting holds. */
  const SeedVersionValue: Json := JNum(1.0)

  datatype CategoryTemplate = CategoryTemplate(name: string, color: string)

  const DefaultTemplates: seq<CategoryTemplate> := [
    CategoryTemplate("Groceries", "#2563eb"),
    CategoryTemplate("Housing", "#9333ea"),
    CategoryTemplate("Transport", "#0d9488"),
    CategoryTemplate("Utilities", "#f59e0b"),
    CategoryTemplate("Dining Out", "#f97316"),
    CategoryTemplate("Health", "#db2777"),
    CategoryTemplate("Leisure", "#3b82f6"),
    CategoryTemplate("Savings", "#16a34a")
  ]

  const DefaultSettings: seq<Setting> := [
    Setting("currency", Some(JStr("EUR"))),
    Setting("onboarding.completed", Some(JBool(false)))
  ]

  const VersionSetting: Setting := Setting(SeedVersionKey, Some(SeedVersionValue))

  /** The default categories, visible, stamped with the clock's `now` and one fresh id each. */
  function DefaultCategories(ids: seq<string>, now: string): (r: seq<Category>)
    requires |ids| == |DefaultTemplates|
    ensures |r| == |DefaultTemplates|
    ensures forall i :: 0 <= i < |r| ==>
      r[i] == Category(ids[i], DefaultTemplates[i].name, Some(DefaultTemplates[i].color), false, now, now)
  {
    seq(|ids|, i requires 0 <= i < |ids| =>
      Category(ids[i], DefaultTemplates[i].name, Some(DefaultTemplates[i].color), false, now, now))
  }

  /** `existingSeed?.value === SEED_VERSION_VALUE`. */
  predicate Seeded(settings: seq<Setting>) {
    var existing := Lookup(settings, SettingKey, SeedVersionKey);
    existing.Some? && existing.value.value == Some(SeedVersionValue)
  }

  datatype SeedState = SeedState(categories: seq<Category>, settings: seq<Setting>)

  /** The two tables seeding leaves, given fresh ids for the default categories. */
  function SeedEffect(s: SeedState, now: string, ids: seq<string>): SeedState
    requires |ids| == |DefaultTemplates|
  {
    if Seeded(s.settings) then s
    else
      var categories := if |s.categories| == 0 then UpsertAll([], CategoryKey, DefaultCategories(ids, now))
                        else s.categories;
      SeedState(categories, Upsert(UpsertAll(s.settings, SettingKey, DefaultSettings), SettingKey, VersionSetting))
  }

  /** After seeding, the seed version is recorded. */
  lemma SeedRecordsVersion(s: SeedState, now: string, ids: seq<string>)
    requires |ids| == |DefaultTemplates|
    ensures Seeded(SeedEffect(s, now, ids).settings)
  {
    if !Seeded(s.settings) {
      LookupUpsertSame(UpsertAll(s.settings, SettingKey, DefaultSettings), SettingKey, VersionSetting);
    }
  }

  /** Seeding twice is seeding once, whatever clock and ids the second call gets. */
  lemma SeedIdempotent(s: SeedState, now: string, ids: seq<string>, now2: string, ids2: seq<string>)
    requires |ids| == |DefaultTemplates| && |ids2| == |DefaultTemplates|
    ensures SeedEffect(SeedEffect(s, now, ids), now2, ids2) == SeedEffect(s, now, ids)
  {
    SeedRecordsVersion(s, now, ids);
  }

  /**
   * Seeding either leaves existing categories untouched or, into an empty table, adds exactly
   * the defaults in their order (when the ids are distinct, as fresh ids are).
   */
  lemma SeedCategories(s: SeedState, now: string, ids: seq<string>)
    requires |ids| == |DefaultTemplates|
    requires forall i, j :: 0 <= i < j < |ids| ==> ids[i] != ids[j]
    ensures |s.categories| > 0 || Seeded(s.settings) ==> SeedEffect(s, now, ids).categories == s.categories
    ensures |s.categories| == 0 && !Seeded(s.settings) ==>
      SeedEffect(s, now, ids).categories == DefaultCategories(ids, now)
  {
    var defaults := DefaultCategories(ids, now);
    assert UniqueKeys(defaults, CategoryKey);
    UpsertAllIntoEmpty(CategoryKey, defaults);
  }

  /** The default categories pass the category schema whenever the clock gives a valid timestamp. */
  lemma DefaultCategoriesValid(ids: seq<string>, now: string)
    requires |ids| == |DefaultTemplates| && IsIsoDateTime(now)
    ensures forall i :: 0 <= i < |ids| ==> ToCategory(DefaultCategories(ids, now)[i]).Success?
  {
    forall i | 0 <= i < |ids| ensures IsName(DefaultTemplates[i].name) && IsHexColor(DefaultTemplates[i].color) {
      TemplateNameValid(i);
      TemplateColorValid(i);
    }
  }

  lemma TemplateNameValid(i: nat)
    requires i < |DefaultTemplates|
    ensures IsName(DefaultTemplates[i].name)
  {
    assert 1 <= |DefaultTemplates[i].name| <= 10;
  }

  lemma TemplateColorValid(i: nat)
    requires i < |DefaultTemplates|
    ensures IsHexColor(DefaultTemplates[i].color)
  {
    var c := DefaultTemplates[i].color;
    assert |c| == 7 && c[0] == '#';
    forall k | 0 <= k < 6 ensures IsHexDigit(c[1..][k]) {
      assert c[1..][k] in "0123456789abcdef";
    }
  }

  /**
   * Unless already seeded, seeding sets the currency to EUR, onboarding to not completed and
   * the seed version to 1, overwriting earlier values, and leaves every other setting as it was.
   */
  lemma SeedSettings(s: SeedState, now: string, ids: seq<string>, key: string)
    requires |ids| == |DefaultTemplates| && !Seeded(s.settings)
    ensures Lookup(SeedEffect(s, now, ids).settings, SettingKey, key) ==
      if key == SeedVersionKey then Some(VersionSetting)
      else if key == "currency" then Some(Setting("currency", Some(JStr("EUR"))))
      else if key == "onboarding.completed" then Some(Setting("onboarding.completed", Some(JBool(false))))
      else Lookup(s.settings, SettingKey, key)
  {
    var mid := UpsertAll(s.settings, SettingKey, DefaultSettings);
    LookupUpsertAll(s.settings, SettingKey, DefaultSettings, key);
    if key == SeedVersionKey {
      LookupUpsertSame(mid, SettingKey, VersionSetting);
    } else {
      LookupUpsertOther(mid, SettingKey, VersionSetting, key);
    }
  }

  /** `for (const setting of settings) await table.put({ ...setting })`. */
  method PutEach(table: Table<Setting>, settings: seq<Setting>)
    requires table.keyOf == SettingKey
    modifies table
    ensures table.data == UpsertAll(old(table.data), SettingKey, settings)
  {
    for i := 0 to |settings|
      invariant table.data == UpsertAll(old(table.data), SettingKey, settings[..i])
    {
      assert settings[..i + 1][..i] == settings[..i];
      var _ := table.Put(settings[i]);
    }
    assert settings[..|settings|] == settings;
  }

  method SeedDatabase(db: Database, now: string, newIds: seq<string>)
    requires db.Valid() && |newIds| == |DefaultTemplates|
    modifies db.categories, db.settings
    ensures SeedState(db.categories.data, db.settings.data) ==
      SeedEffect(old(SeedState(db.categories.data, db.settings.data)), now, newIds)
  {
    var existingSeed := db.settings.Get(SeedVersionKey);
    if existingSeed.Some? && existingSeed.value.value == Some(SeedVersionValue) {
      return;
    }
    var categoryCount := db.categories.Count();
    if categoryCount == 0 {
      db.categories.BulkPut(DefaultCategories(newIds, now));
    }
    PutEach(db.settings, DefaultSettings);
    var _ := db.settings.Put(VersionSetting);
  }
}
