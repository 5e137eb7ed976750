# Expense tracker core, modelled in Dafny

This project models the non-UI core of a personal expense tracker and proves properties of
that model. The tracker keeps categories, expenses, monthly budgets and settings in four keyed
tables. The model covers:

- the zod validators and normalisers the records pass through (`Schemas`);
- month keys and month arithmetic (`Dates`) and cent arithmetic (`Money`);
- the budget snapshot calculator, with carry-over and the ok / approaching / over status (`BudgetCalc`);
- the in-memory table store used as the executable database (`MockDatabase`). It has a `Table` class
  whose `data` sequence the methods update in place, and a `Database` of four tables;
- the services over that store:
  - `BudgetService`, `ExpenseService` and `CategoryService` list, look up, create, update and delete records;
  - `ReportService` builds the budget-against-actual report, the spend per category, and the monthly trend;
  - `BackupService` exports, clears and imports backups;
  - `Seeds` does first-run seeding.

Helper modules:

- `Wrappers`: Option, Result, and a map that may fail.
- `Json`: the `unknown` inputs the services parse.
- `Strings`: `trim`, ASCII `toLowerCase`, `includes`, and the string order `<`.
- `Sorting`: a sort that stands for `Array.prototype.sort`.
- `Records`: the record types of the tables.
- `Totals`: the per-category totals map built by a loop.

The shape of each operation:

- A service write has two parts:
  - a pure *effect*: what the call returns and the table it leaves;
  - a method on the database whose `ensures` is that effect.
- Lemmas state what the effect means: what is stored, what is refused, and what stays unchanged.
- Each loop is proved equal to a reference definition:
  - `AccumulateTotals` in `Totals` fills a totals `Map`, as `getSpendByCategory` and
    `buildBudgetSnapshots` do. Its reference gives each category once, in order of first
    appearance, with the sum of its amounts;
  - `BuildChain` in the trend report builds the list of month keys, and is proved equal to `Chain`,
    repeated `getPreviousMonthKey`;
  - `MonthlyTotals` pairs each of those months with its total, and `BuildBudgetSnapshots` maps the
    budgets to snapshots.

The clock (`getCurrentIsoTimestamp()`), the id generator (`createId()`) and the trend's "today"
are parameters (`now`, `newId`, `newIds`, `today`).

Three points of the code the model keeps as written:

- The status ratio divides spend by the *effective* limit, base limit plus carry-in (`src/domain/budget.ts:49`, `:59`).
- An explicit `month` in an expense patch wins over the month of the patched date, even when the patch also moves the date (`src/services/expense.ts:106`).
- `clampCents` always applies the lower bound. The destructuring default `min = 0` makes `min !== undefined` always true (`src/utils/money.ts:33-36`).

## Model

| member | source | states |
|---|---|---|
| Schemas.ParseMoney | src/domain/schemas.ts:3 | a JSON value is accepted as money iff it is a number that is an integer ≥ 0; the result is that number |
| Schemas.MoneyOfInteger | src/domain/schemas.ts:3 | an integer k is accepted exactly when k ≥ 0, and then reads as k |
| Dates.EnsureMonthKey | src/utils/dates.ts:16-22 | returns its input unchanged iff it is a month key, otherwise fails with "Invalid month key: …" |
| Dates.IsMonthKey | src/utils/dates.ts:1 | the month-key pattern of MONTH_KEY_REGEX and MonthKeySchema (`src/domain/schemas.ts:6`): four digits, a dash, and a month 01..12 |
| Schemas.MonthBoundsAreTimestamps | src/domain/schemas.ts:5 | the first and last instant of every month of years 100..9999 are accepted timestamps |
| Schemas.NormalizeHexColor | src/domain/schemas.ts:11 | the output is '#' plus the lower-cased digits of the input, and is itself an accepted colour |
| Schemas.NormalizeHexColorIdempotent | src/domain/schemas.ts:8-11 | normalising a normalised colour changes nothing |
| Schemas.IsHexColor | src/domain/schemas.ts:8-10 | the colour pattern `^#?[0-9a-fA-F]{6}$`: six hex digits with an optional leading `#` |
| Schemas.IsName | src/domain/schemas.ts:15 | `z.string().min(1).max(40)`: 1..40 UTF-16 code units |
| Schemas.IsNote | src/domain/schemas.ts:46 | `z.string().max(500)`: at most 500 UTF-16 code units |
| Schemas.NameBoundCountsCodeUnits | src/domain/schemas.ts:15 | a name of twenty characters above U+FFFF is accepted, one of twenty-one is refused, as `length` counts them twice |
| Schemas.IsIsoDateTime | src/domain/schemas.ts:5 | the timestamp pattern: `YYYY-MM-DDThh:mm:ss`, an optional fraction, then `Z` or a numeric offset |
| Schemas.ToCategory | src/domain/schemas.ts:13-20 | CategorySchema accepts a record iff its name has 1..40 UTF-16 code units, its colour (if any) is a hex colour, and both timestamps are valid; the output is the record with its colour normalised |
| Schemas.ToCategoryIdempotent | src/domain/schemas.ts:13-20 | a category read back through CategorySchema reads back as itself |
| Schemas.ToExpense | src/domain/schemas.ts:39-49 | ExpenseSchema accepts iff the amount is ≥ 0, the currency is "EUR", date and timestamps are valid, the month is a month key and a note has at most 500 UTF-16 code units; the record is kept as it is |
| Schemas.ToBudget | src/domain/schemas.ts:73-81 | BudgetSchema accepts iff the month is a month key, the limit is ≥ 0 and the timestamps are valid; the record is kept as it is |
| Schemas.ToSetting | src/domain/schemas.ts:100-103 | SettingSchema accepts every stored setting unchanged |
| Schemas.ReqString | src/domain/schemas.ts:14 | a required string field is accepted iff present and a string, and reads as that string |
| Schemas.OptString | src/domain/schemas.ts:24 | an optional string field is accepted iff absent or a string; absent reads as None |
| Schemas.OptBool | src/domain/schemas.ts:27 | an optional boolean field is accepted iff absent or a boolean; absent reads as None |
| Schemas.ReqMoney | src/domain/schemas.ts:41 | a required money field is accepted iff present and accepted by MoneySchema |
| Schemas.OptMoney | src/domain/schemas.ts:65 | an optional money field is accepted iff absent or accepted by MoneySchema |
| Schemas.ReqName | src/domain/schemas.ts:15 | a required name is accepted iff it is a string of 1..40 UTF-16 code units |
| Schemas.OptName | src/domain/schemas.ts:33 | an optional name is accepted iff absent or a string of 1..40 UTF-16 code units |
| Schemas.OptNote | src/domain/schemas.ts:46 | an optional note is accepted iff absent or a string of at most 500 UTF-16 code units |
| Schemas.ReqMonthKey | src/domain/schemas.ts:75 | a required month field is accepted iff it is a string that is a month key |
| Schemas.OptMonthKey | src/domain/schemas.ts:57 | an optional month field is accepted iff absent or a month-key string |
| Schemas.ReqDateTime | src/domain/schemas.ts:43 | a required timestamp field is accepted iff it is a string that is a valid timestamp |
| Schemas.OptDateTime | src/domain/schemas.ts:66 | an optional timestamp field is accepted iff absent or a valid timestamp string |
| Schemas.OptColor | src/domain/schemas.ts:26 | an optional colour is accepted iff absent or a hex colour, and reads as the normalised colour |
| Schemas.NullishColor | src/domain/schemas.ts:34 | a patch colour is accepted iff absent, null or a hex colour; absent, null and a colour are told apart, and a colour is normalised |
| Schemas.DefaultCurrency | src/domain/schemas.ts:55 | the create currency is accepted iff absent or "EUR", and is "EUR" either way |
| Schemas.ParseCategory | src/domain/schemas.ts:13-20 | a category parsed from JSON is already normal: CategorySchema gives it back unchanged |
| Schemas.ParseExpense | src/domain/schemas.ts:39-49 | an expense parsed from JSON passes ExpenseSchema unchanged |
| Schemas.ParseBudget | src/domain/schemas.ts:73-81 | a budget parsed from JSON passes BudgetSchema unchanged; an absent carryOverPrev becomes false |
| Schemas.ParseSetting | src/domain/schemas.ts:100-103 | a setting is accepted iff it is an object with a string key; its value is whatever the `value` field holds, or absent |
| Schemas.ParseCategoryJson | src/domain/schemas.ts:13-20 | parsing the JSON of a category record is the same as reading the record through CategorySchema |
| Schemas.ParseExpenseJson | src/domain/schemas.ts:39-49 | parsing the JSON of an expense record is the same as reading it through ExpenseSchema |
| Schemas.ParseBudgetJson | src/domain/schemas.ts:73-81 | parsing the JSON of a budget record is the same as reading it through BudgetSchema |
| Schemas.ParseSettingJson | src/domain/schemas.ts:100-103 | the JSON of a setting parses back to the setting |
| Schemas.ParseCategoryCreate | src/domain/schemas.ts:22-29 | CategoryCreateSchema accepts iff the input is an object with no key outside {id, name, color, isHidden} and each field is valid; the result holds exactly those fields |
| Schemas.ParseCategoryUpdate | src/domain/schemas.ts:31-37 | CategoryUpdateSchema accepts iff no key is outside {name, color, isHidden} and each field is valid; a colour may be null |
| Schemas.ParseExpenseCreate | src/domain/schemas.ts:51-61 | ExpenseCreateSchema accepts iff no key is outside its seven and each field is valid; the currency comes out as "EUR" |
| Schemas.ParseExpenseUpdate | src/domain/schemas.ts:63-71 | ExpenseUpdateSchema accepts iff no key is outside its five and each present field is valid |
| Schemas.ParseBudgetCreate | src/domain/schemas.ts:83-91 | BudgetCreateSchema accepts iff no key is outside its five and month, categoryId and limit are valid |
| Schemas.ParseBudgetUpdate | src/domain/schemas.ts:93-98 | BudgetUpdateSchema accepts iff the only keys are limitCents and carryOverPrev, each valid |
| Schemas.BudgetUpdateRejectsKeyChanges | src/domain/schemas.ts:93-98 | a budget patch naming the month, the category or the id is refused |
| Schemas.ParseArray | src/domain/schemas.ts:108-111 | an array field is accepted iff it is an array whose every element the element schema accepts |
| Schemas.ParseBackup | src/domain/schemas.ts:105-112 | an accepted backup has version exactly 1, a valid exportedAt, and every record normal for its schema |
| Schemas.CategoriesRoundTrip | src/domain/schemas.ts:108 | normal categories written as JSON parse back to themselves |
| Schemas.BudgetsRoundTrip | src/domain/schemas.ts:109 | normal budgets written as JSON parse back to themselves |
| Schemas.ExpensesRoundTrip | src/domain/schemas.ts:110 | normal expenses written as JSON parse back to themselves |
| Schemas.SettingsRoundTrip | src/domain/schemas.ts:111 | settings written as JSON parse back to themselves |
| Schemas.BackupRoundTrip | src/domain/schemas.ts:105-112 | a version-1 payload of normal records, written as JSON, parses back to itself |
| Schemas.BackupRejectsOtherVersions | src/domain/schemas.ts:106 | a payload of any other version is refused |
| Dates.KeyYear | src/utils/dates.ts:26-27 | the year read from a month key lies in 0..9999 |
| Dates.KeyMonth | src/utils/dates.ts:26-28 | the month read from a month key lies in 1..12 |
| Dates.ShiftMonthKey | src/utils/dates.ts:24-31 | fails with "Invalid month key: …" on a non-key; a result is always seven characters long |
| Dates.GetPreviousMonthKey | src/utils/dates.ts:33-35 | fails with "Invalid month key: …" on a non-key; for years 100..9999 it gives the month key whose month index is one less |
| Dates.GetNextMonthKey | src/utils/dates.ts:37-39 | fails with "Invalid month key: …" on a non-key; for years 100..9999 short of 9999-12 it gives the month key whose month index is one more |
| Dates.ShiftStep | src/utils/dates.ts:24-31 | shifting a key of years 100..9999 by an offset that stays in those years lands on the key whose month index is that much further |
| Dates.ShiftMonthKeyIndex | src/utils/dates.ts:24-31 | the shifted key is the key of the month index Date.UTC is handed (UtcIndex) plus the offset, the year carried or borrowed, while that index stays in years 0..9999 |
| Dates.KeyOfIndexRoundTrip | src/utils/dates.ts:29-30 | every month index of years 0..9999 has a key, whose index is that index again |
| Dates.KeyOfMonthIndex | src/utils/dates.ts:26-30 | every month key is the key of its own month index |
| Dates.UtcIndex | src/utils/dates.ts:29 | Date.UTC reads a key's year as written from 100 on, and years 0..99 as 1900..1999 |
| Dates.ShiftByZero | src/utils/dates.ts:24-31 | shifting a key of years 100..9999 by zero gives it back |
| Dates.ShiftCompose | src/utils/dates.ts:24-31 | shifting by a and then by b is shifting by a + b, while the keys stay in years 100..9999 |
| Dates.TwoDigitYearIsRead19xx | src/utils/dates.ts:29 | a key of years 0000..0099 shifts into the 1900s, so even a shift by zero changes it |
| Dates.PreviousOfJanuary | src/utils/dates.ts:33-35 | the month before YYYY-01 is (YYYY−1)-12 |
| Dates.NextOfPrevious | src/utils/dates.ts:33-39 | the next key of the previous key is the key itself |
| Dates.PreviousOfNext | src/utils/dates.ts:33-39 | the previous key of the next key is the key itself |
| Dates.DaysInMonth | src/utils/dates.ts:55 | day 0 of the next month, read as the length of this one, lies between 28 and 31 |
| Dates.IsLeapYear | src/utils/dates.ts:55 | the Gregorian leap-year rule `Date.UTC` follows: divisible by 4, and not by 100 unless by 400 |
| Dates.StartOfMonthIso | src/utils/dates.ts:41-48 | throws "Invalid month key: …" on a non-key; for years 100..9999 it is the key followed by "-01T00:00:00.000Z" |
| Dates.EndOfMonthIso | src/utils/dates.ts:50-57 | throws "Invalid month key: …" on a non-key; for years 100..9999 it is the key, '-', the two-digit length of the month, then "T23:59:59.999Z" |
| Dates.StartBeforeEnd | src/utils/dates.ts:41-57 | a month's first instant sorts strictly before its last instant |
| Dates.ClampDateToMonth | src/utils/dates.ts:63-74 | fails on a non-key; otherwise the result lies between the month's start and end in string order, is the input when the input lies there, the start when the input is before it, and the end when it is after |
| Dates.ClampedIsInMonth | src/utils/dates.ts:59-74 | for a month of years 100..9999, a clamped timestamp belongs to that month: its month key is the month, the same as the month start's |
| Dates.GetMonthKey | src/utils/dates.ts:11-14 | `toISOString().slice(0, 7)` of a canonical UTC timestamp: its first seven characters |
| Dates.IsSameMonth | src/utils/dates.ts:59-61 | two timestamps share a month iff their month keys are equal |
| Dates.BoundsShareMonth | src/utils/dates.ts:41-61 | the first and last instants of a month both have that month's key, so they are in the same month |
| Money.Reduce | src/utils/money.ts:29-31 | the left fold `reduce((t, v) => t + v, acc)` is acc plus the sum of the values |
| Money.AddCents | src/utils/money.ts:29-31 | addCents is the sum of the values, and 0 for the empty list |
| Money.SumAppend | src/utils/money.ts:29-31 | the sum of two lists joined is the sum of their sums |
| Money.SumNonNegative | src/utils/money.ts:29-31 | non-negative amounts have a non-negative sum |
| Money.AddCentsExample | src/utils/money.ts:29-31 | [100, 200, 50] adds up to 350 |
| Money.ClampCents | src/utils/money.ts:33-42 | the result is ≤ max when max is given; it is ≥ min (default 0) unless max wins; a value within bounds is kept; a value below min gives min; when min > max, max wins |
| Money.ClampCentsExamples | src/utils/money.ts:33-42 | −100 with no options gives 0; 500 with min 100 and max 400 gives 400 |
| BudgetCalc.CarryIn | src/domain/budget.ts:13-29 | carry-in is never negative, is 0 without carry-over or without a previous budget, and otherwise is the previous leftover (a missing previous total counting as 0) clamped at 0 |
| BudgetCalc.ResolveStatus | src/domain/budget.ts:31-44 | a zero limit is over iff anything was spent and never approaching; a positive limit is over iff spend ≥ limit and approaching iff spend < limit and spend ≥ ratio · limit; a negative limit is over iff spend ≤ limit (the quotient flips) |
| BudgetCalc.CalculateBudgetSnapshot | src/domain/budget.ts:46-61 | category, month, base limit and spend are copied; available = limit + carry-in − spend; the status is resolved against the effective limit with ratio 0.8 by default |
| BudgetCalc.StatusMonotone | src/domain/budget.ts:31-44 | for a fixed non-negative limit and ratio, spending more never moves the status back along ok → approaching → over |
| BudgetCalc.SnapshotStatusFromAvailable | src/domain/budget.ts:46-61 | with a non-negative base limit the snapshot is over exactly when available < 0, or available = 0 while the effective limit is positive; approaching implies available > 0 |
| BudgetCalc.WorkedCases | src/domain/budget.ts:13-61 | a 500.00 budget with spend 200/420/520 is ok/approaching/over with 300/80/−20 available; a 600.00 previous budget with 400.00 spent carries in 200.00; without a previous budget nothing is carried in |
| MockDatabase.Filter | src/test/utils/mockDatabase.ts:43 | the filtered records are at most as many as the table holds, each a record of the table that passes the predicate |
| MockDatabase.FilterMembers | src/test/utils/mockDatabase.ts:43 | a record is kept by the filter iff it is in the table and passes |
| MockDatabase.FilterAppend | src/test/utils/mockDatabase.ts:43 | filtering keeps table order: it distributes over concatenation |
| MockDatabase.FilterFilter | src/test/utils/mockDatabase.ts:53-55 | filtering by p and then by q is filtering by p and q |
| MockDatabase.And | src/test/utils/mockDatabase.ts:53-55 | the `and` of a collection accepts exactly what both predicates accept |
| MockDatabase.WhereEquals | src/test/utils/mockDatabase.ts:71-77 | `where(field).equals(v)` accepts exactly the records whose field equals v |
| MockDatabase.First | src/test/utils/mockDatabase.ts:49-52 | `first()` is None iff no record passes, and otherwise the earliest record that passes |
| MockDatabase.FirstIsHeadOfFilter | src/test/utils/mockDatabase.ts:49-52 | `first()` is the head of the filtered records |
| MockDatabase.IndexOfKey | src/test/utils/mockDatabase.ts:84 | the index found holds the key and no earlier record does; −1 means no record holds it |
| MockDatabase.Lookup | src/test/utils/mockDatabase.ts:78-81 | `get(k)` is None iff no record has key k, and otherwise a stored record with key k |
| MockDatabase.LookupUpsertSame | src/test/utils/mockDatabase.ts:82-91 | after `put(r)` the key of r reads r |
| MockDatabase.LookupUpsertOther | src/test/utils/mockDatabase.ts:82-91 | `put` leaves every other key as it was |
| MockDatabase.UpsertKeepsUnique | src/test/utils/mockDatabase.ts:82-91 | `put` keeps the keys of a table unique (replace in place or append) |
| MockDatabase.LookupUpsertAll | src/test/utils/mockDatabase.ts:92-96 | after `bulkPut`, a key reads the last record given for it, or what was there before |
| MockDatabase.UpsertAllKeepsUnique | src/test/utils/mockDatabase.ts:92-96 | `bulkPut` keeps the keys unique |
| MockDatabase.UpsertAllIntoEmpty | src/test/utils/mockDatabase.ts:92-96 | `bulkPut` of records with distinct keys into an empty table stores exactly them, in order |
| MockDatabase.LastWithKey | src/test/utils/mockDatabase.ts:92-96 | the record a left-to-right bulk put leaves for a key: None iff no record has it |
| MockDatabase.LookupWithout | src/test/utils/mockDatabase.ts:100-102 | after `delete(k)` nothing has key k and other keys read as before |
| MockDatabase.WithoutAbsent | src/test/utils/mockDatabase.ts:100-102 | deleting an absent key changes nothing |
| MockDatabase.LookupWithoutKeys | src/test/utils/mockDatabase.ts:97-99 | after `bulkDelete(keys)` exactly the listed keys are gone, and the others read as before |
| MockDatabase.FilterKeepsUnique | src/test/utils/mockDatabase.ts:97-102 | deletions keep the keys unique |
| MockDatabase.Table.constructor | src/test/utils/mockDatabase.ts:62-64 | a new table holds its initial records |
| MockDatabase.Table.ToArray | src/test/utils/mockDatabase.ts:68-70 | `toArray()` returns the table contents |
| MockDatabase.Table.FindIndex | src/test/utils/mockDatabase.ts:84 | the loop finds the first index holding the key, or −1 |
| MockDatabase.Table.Get | src/test/utils/mockDatabase.ts:78-81 | `get(k)` returns the first record with key k, or None |
| MockDatabase.Table.Put | src/test/utils/mockDatabase.ts:82-91 | `put` leaves the table with the record replaced in place or appended, and returns its key |
| MockDatabase.Table.BulkPut | src/test/utils/mockDatabase.ts:92-96 | the loop leaves the table as the puts one after the other |
| MockDatabase.Table.BulkDelete | src/test/utils/mockDatabase.ts:97-99 | leaves the table without the records whose keys are listed |
| MockDatabase.Table.Delete | src/test/utils/mockDatabase.ts:100-102 | leaves the table without the records of that key |
| MockDatabase.Table.Clear | src/test/utils/mockDatabase.ts:103-105 | leaves the table empty |
| MockDatabase.Table.Count | src/test/utils/mockDatabase.ts:106-108 | the number of records |
| MockDatabase.Table.Select | src/test/utils/mockDatabase.ts:46-48 | a collection's `toArray()`: the passing records in table order |
| MockDatabase.Table.SelectFirst | src/test/utils/mockDatabase.ts:49-52 | a collection's `first()` |
| MockDatabase.Table.SelectCount | src/test/utils/mockDatabase.ts:56-58 | a collection's `count()`: the number of passing records |
| MockDatabase.Database.constructor | src/test/utils/mockDatabase.ts:121-131 | four fresh tables, keyed by id (settings by key), holding the seed records |
| BudgetService.InSlot | src/services/budget.ts:49-53 | the duplicate query accepts exactly the budgets of that month and category |
| BudgetService.BudgetFilter | src/services/budget.ts:27-35 | a budget passes iff it matches every filter that is set, month and category together |
| BudgetService.ListBudgetsResult | src/services/budget.ts:23-39 | fails iff a matching budget fails the schema; otherwise the matching budgets in table order |
| BudgetService.ListBudgetsMatches | src/services/budget.ts:29-38 | a budget is listed iff it is stored and matches every filter that is set |
| BudgetService.ListBudgetsUnfiltered | src/services/budget.ts:23-39 | with no filters the whole table is listed |
| BudgetService.ListBudgets | src/services/budget.ts:23-39 | the listing read from the database is ListBudgetsResult of its budgets table |
| BudgetService.GetBudgetByIdResult | src/services/budget.ts:41-44 | null iff no budget has the id; a found budget is stored and has that id |
| BudgetService.GetBudgetById | src/services/budget.ts:41-44 | the lookup on the database is GetBudgetByIdResult of its table |
| BudgetService.CreateBudgetEffect | src/services/budget.ts:46-71 | a rejected input throws a validation error and writes nothing; otherwise the table is unchanged or has the new record put |
| BudgetService.NewBudget | src/services/budget.ts:59-67 | the record createBudget writes: the parsed fields, the given or a new id, carryOverPrev defaulting to false, stamped now |
| BudgetService.CreateBudgetStores | src/services/budget.ts:59-69 | a created budget has the input fields, carryOverPrev false by default, createdAt = updatedAt = now, is stored under its id, and no other id changes |
| BudgetService.CreateBudgetRejectsDuplicate | src/services/budget.ts:49-57 | when another id holds the month and category, create throws "Budget for this category and month already exists" and writes nothing |
| BudgetService.CreateBudgetSucceeds | src/services/budget.ts:46-71 | without such a duplicate and with a valid clock, create succeeds |
| BudgetService.CreateBudgetKeepsOnePerSlot | src/services/budget.ts:49-69 | create keeps the ids unique and at most one budget per month and category |
| BudgetService.CreateBudget | src/services/budget.ts:46-71 | the method returns and leaves what CreateBudgetEffect says |
| BudgetService.PatchBudget | src/services/budget.ts:85-89 | a patched budget keeps id, month, category and createdAt, takes the patched limit and flag, and is stamped now |
| BudgetService.UpdateBudgetEffect | src/services/budget.ts:73-93 | a rejected patch throws a validation error; a missing id throws "Budget {id} not found"; neither writes |
| BudgetService.UpdateBudgetStores | src/services/budget.ts:79-91 | a successful update rewrites the stored budget in place, keeps its month and category, and leaves every other id alone |
| BudgetService.UpdateBudgetKeepsOnePerSlot | src/services/budget.ts:73-93 | update keeps at most one budget per month and category |
| BudgetService.UpdateBudget | src/services/budget.ts:73-93 | the method returns and leaves what UpdateBudgetEffect says |
| BudgetService.DeleteBudget | src/services/budget.ts:95-97 | leaves the budgets table without that id |
| BudgetService.DeleteBudgetKeepsOnePerSlot | src/services/budget.ts:95-97 | delete keeps at most one budget per month and category |
| BudgetService.SnapshotOf | src/services/budget.ts:137-145 | a snapshot's spend is the sum of its category's amounts; with no previous budget it carries nothing in |
| BudgetService.PreviousBudgetFor | src/services/budget.ts:138 | `find` by category: none iff no previous budget has the category, otherwise the first previous budget that has it |
| BudgetService.SnapshotsOf | src/services/budget.ts:137-145 | one snapshot per input budget, in order |
| BudgetService.SnapshotFromTotalsIsSnapshotOf | src/services/budget.ts:137-145 | read off the totals maps the loops build, the map callback gives the reference snapshot |
| BudgetService.BuildBudgetSnapshots | src/services/budget.ts:126-146 | the two loops and the map produce the reference snapshots |
| BudgetService.SnapshotsReport | src/services/budget.ts:137-145 | each snapshot copies its budget's category, month and limit, has the category's spend, and carries in from the first previous budget of the category (previous spend summed the same way) |
| BudgetService.SnapshotCarryOver | src/services/budget.ts:138-143 | a carrying budget with a previous budget of its category carries in max(previous limit − previous spend, 0) |
| BudgetService.BudgetSnapshotsResult | src/services/budget.ts:99-116 | succeeds only for a month key, with one snapshot per stored budget of the month, each for that month |
| BudgetService.SnapshotsOfStoreInput | src/services/budget.ts:103-115 | a successful read snapshots the stored rows of the month and of `getPreviousMonthKey(month)` unchanged, since the schemas keep what they accept |
| BudgetService.BudgetSnapshotsOfStore | src/services/budget.ts:99-116 | snapshot i is the i-th stored budget of the month: its actual spend is the category's total over the month's stored expenses, and its carry-in is CarryIn of the first stored budget of that category in the previous month, against that month's stored spend |
| BudgetService.BudgetRowsOfMonth | src/services/budget.ts:103 | the budgets read for a month all belong to that month |
| BudgetService.SnapshotsKeepMonth | src/services/budget.ts:137-145 | snapshots of budgets of one month are for that month |
| BudgetService.GetBudgetSnapshots | src/services/budget.ts:99-116 | the method returns BudgetSnapshotsResult of the two tables |
| Totals.TotalsOf | src/services/budget.ts:127-130 | the totals map: each category once, in order of first appearance, with the sum of its amounts |
| Totals.CategoriesInOrder | src/services/report.ts:37-43 | the categories of the expenses, with no repetition |
| Totals.CategoriesInOrderMembers | src/services/report.ts:37-43 | a category is listed iff some expense has it |
| Totals.CategoryTotalStep | src/services/report.ts:39-41 | one more expense adds its amount to its own category and to no other |
| Totals.TotalsStep | src/services/report.ts:39-41 | one pass of the loop body turns the totals of a prefix into the totals of the longer prefix |
| Totals.AddExisting | src/services/report.ts:40 | `set` on a category already in the map overwrites its entry in place with the increased total |
| Totals.AddNew | src/services/report.ts:40 | `set` on a new category appends an entry holding the amount |
| Totals.AccumulatedIsTotals | src/services/report.ts:39-41 | the fold of the loop body over the expenses is the totals map |
| Totals.AccumulateTotals | src/services/report.ts:37-41 | the loop fills the totals map of the reference definition |
| Totals.GetOrZeroOfTotals | src/services/budget.ts:141 | `totals.get(c) ?? 0` after the loop is the sum of c's amounts, 0 for an unseen category |
| Totals.CategoryTotalNonNegative | src/services/budget.ts:127-130 | totals of non-negative amounts are non-negative |
| ExpenseService.MonthCollection | src/services/expense.ts:49-53 | the collection holds the month's expenses when a month is set, every expense otherwise |
| ExpenseService.CategoryCollection | src/services/expense.ts:28-30 | the category filter is added only when a category is set |
| ExpenseService.ExpenseFilter | src/services/expense.ts:22-40 | an expense passes iff it matches the month and category that are set and, when searching, its note matches the query |
| ExpenseService.SearchQuery | src/services/expense.ts:33-34 | the trimmed, lower-cased search; it is empty iff the search is whitespace only, and then no search filter is applied |
| ExpenseService.NoteMatches | src/services/expense.ts:35 | an expense matches iff it has a note whose lower-cased text includes the query; no note never matches |
| ExpenseService.DateOrder | src/services/expense.ts:56-58 | the comparator orders by date, ascending for 'asc' and descending otherwise |
| ExpenseService.SlicePrefix | src/services/expense.ts:60 | `slice(0, n)` is a prefix of length min(n, length), or for negative n the length shortened by −n |
| ExpenseService.ListExpensesResult | src/services/expense.ts:42-62 | a successful listing is the matching expenses sorted by date, cut by `slice(0, limit)` when a limit is given |
| ExpenseService.ListExpensesMatches | src/services/expense.ts:28-37 | every listed expense is stored and passes the month, category and search filters |
| ExpenseService.ListExpensesComplete | src/services/expense.ts:42-62 | without a limit every matching expense is listed, as often as stored |
| ExpenseService.ListExpensesSorted | src/services/expense.ts:46-58 | the listing is ordered by date, newest first by default and oldest first for 'asc' |
| ExpenseService.ListExpensesLimit | src/services/expense.ts:60 | a non-negative limit keeps the first min(limit, matches) expenses of the sorted listing |
| ExpenseService.BlankSearchIgnored | src/services/expense.ts:32-37 | a search of whitespace only lists what no search lists |
| ExpenseService.ListExpenses | src/services/expense.ts:42-62 | the method returns ListExpensesResult of the expenses table |
| ExpenseService.GetExpenseByIdResult | src/services/expense.ts:64-67 | null iff no expense has the id; a found expense is stored and has that id |
| ExpenseService.GetExpenseById | src/services/expense.ts:64-67 | the method returns GetExpenseByIdResult of the table |
| ExpenseService.CreateExpenseEffect | src/services/expense.ts:69-87 | a rejected input throws a validation error and writes nothing; otherwise the new record is put |
| ExpenseService.NewExpense | src/services/expense.ts:72-83 | the record createExpense writes: the given or a new id, currency "EUR", the given month or else the date's month key, stamped now |
| ExpenseService.CreateExpenseStores | src/services/expense.ts:72-85 | a created expense is in EUR, has the given month or else the date's month (a month key), createdAt = updatedAt = now, is stored under its id, and no other id changes |
| ExpenseService.CreateExpenseSucceeds | src/services/expense.ts:69-87 | with a valid clock and a month given or readable from the date, create succeeds |
| ExpenseService.CreateExpense | src/services/expense.ts:69-87 | the method returns and leaves what CreateExpenseEffect says |
| ExpenseService.PatchExpense | src/services/expense.ts:100-108 | a patched expense keeps id, currency and createdAt, takes each patched field, is stamped now, and has the patched month or else the month of its resulting date |
| ExpenseService.UpdateExpenseEffect | src/services/expense.ts:89-112 | a rejected patch throws a validation error; a missing id throws "Expense {id} not found"; neither writes |
| ExpenseService.UpdateExpenseStores | src/services/expense.ts:95-110 | a successful update rewrites the stored expense in place and leaves every other id alone |
| ExpenseService.UpdateDateMovesMonth | src/services/expense.ts:101-106 | a new date without a patched month moves the expense to the date's month |
| ExpenseService.UpdateExpense | src/services/expense.ts:89-112 | the method returns and leaves what UpdateExpenseEffect says |
| ExpenseService.DeleteExpense | src/services/expense.ts:114-116 | leaves the expenses table without that id |
| CategoryService.Visible | src/services/category.ts:23 | a category is shown iff hidden ones are included or it is not hidden |
| CategoryService.NameOrder | src/services/category.ts:25 | the comparator orders by name |
| CategoryService.ListCategoriesResult | src/services/category.ts:17-26 | fails iff a shown category fails the schema |
| CategoryService.ListCategoriesIsPermutation | src/services/category.ts:22-25 | the listing is a permutation of the shown categories read through the schema |
| CategoryService.ListCategoriesMembers | src/services/category.ts:22-25 | every listed category is a stored category read through the schema, and not hidden unless hidden ones are asked for |
| CategoryService.ListCategoriesComplete | src/services/category.ts:22-25 | every stored category that is shown appears in the listing |
| CategoryService.ListCategoriesSorted | src/services/category.ts:25 | the listing is ordered by name |
| CategoryService.ListCategories | src/services/category.ts:17-26 | the method returns ListCategoriesResult of the table |
| CategoryService.GetCategoryByIdResult | src/services/category.ts:28-31 | null iff no category has the id; a found category has that id and is a stored one read through the schema |
| CategoryService.GetCategoryById | src/services/category.ts:28-31 | the method returns GetCategoryByIdResult of the table |
| CategoryService.CreateCategoryEffect | src/services/category.ts:33-50 | as written, the trimmed record is put whenever the input parses, before it is validated |
| CategoryService.NewCategory | src/services/category.ts:39-46 | the record createCategory writes: the given or a new id, the trimmed name, not hidden unless asked, stamped now |
| CategoryService.CreateCategoryStores | src/services/category.ts:39-48 | a created category has the trimmed name, is not hidden unless asked, has createdAt = updatedAt = now, is stored under its id, and no other id changes |
| CategoryService.CreateCategoryStoresBlankName | src/services/category.ts:41-49 | a whitespace-only name is stored as "" and then rejected, leaving an invalid record in the table |
| CategoryService.BlankNameIsAccepted | src/domain/schemas.ts:22-29 | the input `{ name: "   " }` passes the create schema with a whitespace-only name |
| CategoryService.CreateCategoryCheckedEffect | src/services/category.ts:33-50 | corrected create: a failure writes nothing; a success put the trimmed record |
| CategoryService.CreateCategoryCheckedKeepsValid | src/services/category.ts:33-50 | the corrected create keeps every stored category valid, and agrees with the original whenever that one succeeds |
| CategoryService.CreateCategoryCheckedSucceeds | src/services/category.ts:33-50 | with a valid clock, the corrected create accepts every parsed input whose name is not whitespace only |
| CategoryService.NewCategoryValid | src/services/category.ts:39-46 | a non-blank name of at most 40 UTF-16 code units, a hex colour and a valid clock make a valid record |
| CategoryService.CreateCategory | src/services/category.ts:33-50 | the method returns and leaves what CreateCategoryEffect says |
| CategoryService.PatchCategory | src/services/category.ts:64-69 | a patched category keeps id and createdAt, takes the patched name and flag, is stamped now; a null colour clears, an absent one keeps, a given one replaces |
| CategoryService.PatchColor | src/services/category.ts:67 | `color === null ? undefined : color ?? existing.color`: null clears, absent keeps, a value replaces |
| CategoryService.UpdateCategoryEffect | src/services/category.ts:52-73 | a rejected patch throws a validation error; a missing id throws "Category {id} not found"; neither writes |
| CategoryService.UpdateCategoryStores | src/services/category.ts:63-72 | an update of a stored id rewrites that record in place, whatever the result, and nothing else |
| CategoryService.UpdateCategoryColor | src/services/category.ts:67 | seen from the input: `color: null` clears, no colour key keeps, a colour sets the normalised colour; updatedAt is now |
| CategoryService.UpdateCategory | src/services/category.ts:52-73 | the method returns and leaves what UpdateCategoryEffect says |
| CategoryService.SetCategoryHiddenOnlyFlag | src/services/category.ts:75-81 | setCategoryHidden is the update `{ isHidden }`: it fails on a missing id and otherwise changes only the flag and updatedAt |
| CategoryService.SetCategoryHidden | src/services/category.ts:75-81 | the method is updateCategory with the patch `{ isHidden }` |
| CategoryService.DeleteCategoryEffect | src/services/category.ts:83-90 | a refused delete leaves the table unchanged |
| CategoryService.DeleteCategoryGuard | src/services/category.ts:84-89 | delete is refused, with the "Cannot delete category …" message, iff some expense is filed under the category; otherwise the id is gone and the rest reads as before |
| CategoryService.DeleteCategory | src/services/category.ts:83-90 | the method returns and leaves what DeleteCategoryEffect says |
| ReportService.GetBudgetVsActual | src/services/report.ts:25-30 | the report is exactly the budget snapshots of the month |
| ReportService.Rows | src/services/report.ts:43-44 | one row per totals entry, with its category, the month and the total |
| ReportService.SpendOrder | src/services/report.ts:45 | the comparator puts larger totals first |
| ReportService.SpendByCategoryRows | src/services/report.ts:32-46 | one row per category spent on in the month, a permutation of the unsorted rows |
| ReportService.SpendSorted | src/services/report.ts:45 | the rows are ordered by total, largest first |
| ReportService.SpendRowFacts | src/services/report.ts:36-44 | each row is for the queried month, totals its category's expenses of that month, and names a category that has one |
| ReportService.SpendCovers | src/services/report.ts:36-44 | every category with an expense in the month has a row |
| ReportService.SpendOneRowPerCategory | src/services/report.ts:37-44 | no category has two rows |
| ReportService.GetSpendByCategory | src/services/report.ts:32-46 | the method returns SpendByCategoryRows of the table |
| ReportService.Chain | src/services/report.ts:55-58 | the months loop for any step: n + 1 entries starting at the start, or the first error thrown |
| ReportService.MonthsBack | src/services/report.ts:55-58 | the months list has monthsBack + 1 entries and starts at the start month |
| ReportService.ChainFailureSticks | src/services/report.ts:56-57 | once the loop throws, asking for more months throws the same error |
| ReportService.BuildChain | src/services/report.ts:55-58 | the first loop builds Chain, counting a negative monthsBack as 0 |
| ReportService.MonthsBackIndex | src/services/report.ts:55-58 | from year 100 on, entry k is the month k months before the start |
| ReportService.Points | src/services/report.ts:60-65 | one point per month, in order, with the month's sum of amounts |
| ReportService.Reverse | src/services/report.ts:67 | `reverse()` reads the list from the other end |
| ReportService.TrendResult | src/services/report.ts:48-68 | a trend has one point more than the months counted back (11 by default, a negative count meaning 0), and its last point is the start month |
| ReportService.TrendPoints | src/services/report.ts:52-67 | from year 100 on, point i is the month n − i before the start, so months ascend, and its total is the month's sum of amounts |
| ReportService.TrendConsecutive | src/services/report.ts:55-67 | consecutive points are consecutive months: each next month key is the next point's |
| ReportService.MonthTotalEmpty | src/services/report.ts:62-63 | a month without expenses totals 0 |
| ReportService.TrendRejectsInvalidStart | src/services/report.ts:56-57 | a start that is not a month key makes the trend throw "Invalid month key: …" as soon as one earlier month is needed |
| ReportService.GetTrendOverTime | src/services/report.ts:48-68 | the method returns TrendResult of the table |
| ReportService.MonthlyTotals | src/services/report.ts:60-65 | the second loop yields the points of the months, in order |
| BackupService.ExportResult | src/services/backup.ts:16-32 | the export succeeds iff every category, budget and expense passes its schema; it has version 1, the clock's timestamp, the categories normalised and the other tables as stored |
| BackupService.ExportBackup | src/services/backup.ts:16-32 | the method returns ExportResult of the four tables and changes nothing |
| BackupService.ClearAll | src/services/backup.ts:34-46 | categories, budgets and expenses are emptied, and settings too unless kept |
| BackupService.ClearAllData | src/services/backup.ts:34-46 | the method leaves the store ClearAll describes |
| BackupService.ImportBackupEffect | src/services/backup.ts:48-95 | an invalid payload throws and leaves the store untouched; a valid one succeeds |
| BackupService.ImportWrites | src/services/backup.ts:66-92 | the writes of the import: in merge mode the payload's ids are deleted first, then the three bulk puts, settings cleared unless kept, then the settings put |
| BackupService.ImportReplaceContents | src/services/backup.ts:55-81 | in replace mode every id reads as the payload's last record with it, and ids not in the payload are gone |
| BackupService.ImportReplaceExact | src/services/backup.ts:55-81 | in replace mode, with distinct ids in the payload, the three tables are exactly the payload arrays |
| BackupService.ImportMergeContents | src/services/backup.ts:66-81 | in merge mode a payload id reads as the payload's record, and any other id as before |
| BackupService.ImportSettings | src/services/backup.ts:83-92 | without keepExistingSettings a key reads as the payload's setting or is absent; with it, payload keys overwrite and other keys survive |
| BackupService.ImportWithoutOptions | src/services/backup.ts:48-95 | with no options a valid import replaces all four tables with bulk puts into empty ones |
| BackupService.ExportImportRoundTrip | src/services/backup.ts:16-95 | importing the JSON of an export with no options, into any store, restores the exported tables (categories as their schema normalises them) |
| BackupService.ImportBackup | src/services/backup.ts:48-95 | the method returns and leaves what ImportBackupEffect says |
| BackupService.WriteBackup | src/services/backup.ts:59-94 | the writes in the transaction: drop the payload ids when merging, then bulk puts, clearing settings unless kept |
| Seeds.DefaultCategories | src/db/seeds.ts:10-19 | the eight default categories in order, visible, with their names and colours, each with its given id and stamped now |
| Seeds.Seeded | src/db/seeds.ts:27-30 | a store counts as seeded iff its 'seed:version' setting holds the value 1 |
| Seeds.SeedEffect | src/db/seeds.ts:26-55 | a seeded store is returned as it is; otherwise the defaults go into an empty categories table and the default settings and seed version are put |
| Seeds.SeedRecordsVersion | src/db/seeds.ts:53 | after seeding, 'seed:version' holds 1 |
| Seeds.SeedIdempotent | src/db/seeds.ts:26-55 | seeding a second time changes nothing, whatever clock and ids it gets |
| Seeds.SeedCategories | src/db/seeds.ts:34-47 | existing categories are untouched; an empty table gets exactly the defaults, in order |
| Seeds.DefaultCategoriesValid | src/db/seeds.ts:10-19 | every default category passes the category schema when the clock gives a valid timestamp |
| Seeds.SeedSettings | src/db/seeds.ts:21-24 | unless already seeded, currency becomes "EUR", onboarding.completed false and seed:version 1, overwriting, while other settings stay |
| Seeds.PutEach | src/db/seeds.ts:49-51 | the settings loop leaves the puts one after the other |
| Seeds.SeedDatabase | src/db/seeds.ts:26-55 | the method leaves the two tables as SeedEffect describes |
| Sorting.SortBy | src/services/category.ts:25 | the sort returns a permutation of its input |
| Sorting.SortBySorted | src/services/report.ts:45 | for a total preorder the sorted list is ordered by the comparator |
| Sorting.SortBySortedIsIdentity | src/services/expense.ts:56-58 | sorting an already ordered list changes nothing |
| Wrappers.TryMap | src/services/backup.ts:27-30 | `map(schema.parse)` fails iff some element fails, and otherwise maps element by element |
| Strings.TrimIsCore | src/services/category.ts:41 | `trim()` returns a piece of the input with only whitespace cut on each side and no whitespace at its ends |
| Strings.Trim | src/services/category.ts:41 | `trim()`: leading, then trailing, JavaScript whitespace removed |
| Strings.TrimUtf16Length | src/services/category.ts:41 | trimming never adds code units, so a name within the bound stays within it |
| Strings.TrimEmptyIff | src/services/category.ts:41 | the trimmed string is empty iff the input is whitespace only |
| Strings.TrimIdempotent | src/services/expense.ts:33 | trimming twice is trimming once |
| Strings.ToLower | src/services/expense.ts:33-35 | `toLowerCase()` on ASCII: maps A–Z to a–z and keeps every other character and the length |
| Strings.ContainsIff | src/services/expense.ts:35 | `includes` holds iff the query occurs at some position of the note |
| Strings.Contains | src/services/expense.ts:35 | `includes`: the needle is a prefix of the haystack or of one of its suffixes |
| Strings.Utf16Length | src/domain/schemas.ts:15 | JavaScript `length`: two code units for a character above U+FFFF, one otherwise, hence between the number of characters and twice it |
| Strings.StrLeTotal | src/services/category.ts:25 | the string order compares any two strings |
| Strings.StrLeTransitive | src/services/category.ts:25 | the string order is transitive |
| Strings.StrLeAntisymmetric | src/utils/dates.ts:67-72 | strings ordered both ways are equal |
| Strings.PadDecimal | src/utils/dates.ts:30 | the fixed-width zero-padded digits `toISOString()` writes, whose value is the number when it fits |

## Left out

- parseEuroToCents and formatCentsToEuro (`src/utils/money.ts:8-27`) are not modelled. They rely on floating point, `parseFloat` and `Intl.NumberFormat`.
- BudgetCalc.ResolveStatus: the ratio test uses exact real division. Floating-point rounding at the threshold is not modelled.
- ExpenseService.SlicePrefix and ReportService.MonthsCount: the expense `limit` and the trend's `monthsBack` are JavaScript numbers, taken here as integers. Fractional, NaN and infinite values (`slice(0, 2.5)` keeps 2, `slice(0, NaN)` none and `slice(0, Infinity)` all; the trend loop `for (i = 1; i <= monthsBack; …)` adds ⌊monthsBack⌋ months for a fractional value and never ends for Infinity) are not modelled.
- Amounts are unbounded integers. JavaScript numbers add exactly only below 2^53, and that bound is not modelled.
- Schemas.IsIsoDateTime: zod's `datetime({ offset: true })` is approximated by its pattern. Calendar validity of the day and time fields is not checked.
- Dates.GetMonthKey: `new Date(value).toISOString().slice(0, 7)` is modelled only on canonical UTC timestamps, where it is the first seven characters. Parsing an offset or an invalid date is left out.
- Dates.ClampDateToMonth takes the canonical ISO string of the date. The `Date` conversion of its first argument is the same `Date` parsing that is left out above.
- The month and trend lemmas hold only for years 100..9999. `Date.UTC`'s reading of years 0..99 as 19xx is modelled and shown by `Dates.TwoDigitYearIsRead19xx`. The extended-year `±YYYYYY` output is formatted, but no lemma is stated about it.
- Strings.ToLower lower-cases ASCII letters only. Unicode case mapping is left out.
- Strings.StrLe: `localeCompare` (names and dates) is modelled as the lexicographic order of Unicode scalar values. Locale collation is left out. Scalar order also differs from JavaScript's UTF-16 code-unit order on one point: U+E000..U+FFFF sort above the characters beyond U+FFFF here, below them in JavaScript.
- Sorting: JavaScript's stable sort is modelled by an insertion sort. The contracts state ordering and permutation only, not which of two equal elements comes first.
- `transaction` is inlined into the service methods. The mock runs its callback once and never rolls back, so nothing atomic is claimed.
- BackupService.ImportBackupEffect promises only that an invalid payload fails before any write. The replace-mode clear runs before, and separately from, the import writes.
- `Promise.all` in exportBackup and importBackup is modelled as the reads and deletes in sequence. They touch different tables, so the order does not matter.
- The `{ ...item }` copies the mock makes on every read and write are not modelled. Records are values, so there is no aliasing to copy away.
- getKey's throw for a record with neither `id` nor `key` (`src/test/utils/mockDatabase.ts:39`) is not modelled. Every table is typed with its key.
- `bulkAdd` in seeding is modelled as `bulkPut` into a table that `count()` has just found empty. There the two agree.
- Totals: a JavaScript `Map` is modelled as a list of entries in insertion order.
- BackupService.ExportResult reads settings through SettingSchema as the identity. That schema accepts any value, and a stored setting always has a string key.
- The clock, `createId()` and the default "today" of the trend are parameters. Nothing is said about how fresh the ids are, except that `Seeds.SeedCategories` assumes the eight ids are distinct.

## Findings

| source | as written | input that shows it | evidently intended | confidence | as-written member | corrected member |
|---|---|---|---|---|---|---|
| src/services/category.ts:41, :48-49 | createCategory validates the name before trimming it, then stores the trimmed record and only afterwards passes it to CategorySchema | `{ name: "   " }`: the create schema accepts three spaces; the record is stored with name "" and then CategorySchema throws, leaving an invalid category in the table | validate the trimmed record before writing it, so that a rejected create writes nothing and every stored category passes CategorySchema | not executed | CategoryService.CreateCategoryStoresBlankName | CategoryService.CreateCategoryCheckedKeepsValid |
