/**
 * The persisted records of the four tables (the record interfaces of src/db/db.ts, which are
 * also the parsed types of src/domain/types.ts), the derived budget snapshot, the backup
 * payload, and the two kinds of error the core throws.
 */
module Records {
  import opened Wrappers
  import opened Json

  datatype Category = Category(
    id: string,
    name: string,
    color: Option<string>,
    isHidden: bool,
    createdAt: string,
    updatedAt: string)

  datatype Expense = Expense(
    id: string,
    amountCents: int,
    currency: string,
    date: string,
    month: string,
    categoryId: string,
    note: Option<string>,
    createdAt: string,
    updatedAt: string)

  datatype Budget = Budget(
    id: string,
    month: string,
    categoryId: string,
    limitCents: int,
    carryOverPrev: bool,
    createdAt: string,
    updatedAt: string)

  /** A setting's value is any JSON value, or absent (`undefined`). */
  datatype Setting = Setting(key: string, value: Option<Json>)

  /** BudgetStatusLevel: 'ok' | 'approaching' | 'over'. */
  datatype Status = Ok | Approaching | Over

  datatype BudgetSnapshot = BudgetSnapshot(
    categoryId: string,
    month: string,
    limitCents: int,
    actualCents: int,
    carryInCents: int,
    availableCents: int,
    status: Status)

  datatype BackupPayload = BackupPayload(
    version: int,
    exportedAt: string,
    categories: seq<Category>,
    budgets: seq<Budget>,
    expenses: seq<Expense>,
    settings: seq<Setting>)

  /** A schema rejection (zod's ZodError) or `new Error(message)` / a RangeError. */
  datatype Error = ValidationError | Thrown(message: string)

  type Outcome<T> = Result<T, Error>

  /** What a write to one table returns, and the contents it leaves in that table. */
  datatype Effect<R, T> = Effect(result: Outcome<R>, table: seq<T>)

  /** An optional string filter that JavaScript treats as set: present and not empty. */
  predicate Present(s: Option<string>) {
    s.Some? && s.value != ""
  }

  /** The key each table is indexed by: `id`, or `key` for settings. */
  function CategoryKey(c: Category): string { c.id }
  function ExpenseKey(e: Expense): string { e.id }
  function BudgetKey(b: Budget): string { b.id }
  function SettingKey(s: Setting): string { s.key }
}
