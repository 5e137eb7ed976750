/**
 * The zod schemas of src/domain/schemas.ts, as validators and normalisers.
 *
 * A schema applied to an `unknown` input is a function from `Json` to an outcome; a schema
 * applied to a stored record (`toCategory`, `toExpense`, `toBudget` in the services) is a
 * function from the record.  Each record parser first reads the JSON shape of the record
 * (which fields are present, with which JavaScript types) and then applies the same
 * record-level validator, so every rule is written once.  Plain `z.object` drops unknown
 * keys; `.strict()` rejects them.  A failed parse is `ValidationError` (zod's ZodError).
 */
module Schemas {
  import opened Wrappers
  import opened Json
  import opened Strings
  import opened Records
  import opened Dates

  // ---------------------------------------------------------------- scalars

  predicate IsInteger(n: real) { n.Floor as real == n }

  /** MoneySchema: `z.number().int().nonnegative()`. */
  function ParseMoney(j: Json): (r: Outcome<int>)
    ensures r.Success? <==> j.JNum? && IsInteger(j.n) && j.n >= 0.0
    ensures r.Success? ==> r.value >= 0 && r.value as real == j.n
  {
    if j.JNum? && IsInteger(j.n) && j.n >= 0.0 then Success(j.n.Floor) else Failure(ValidationError)
  }

  /** Money values are exactly the non-negative integers. */
  lemma MoneyOfInteger(k: int)
    ensures ParseMoney(JNum(k as real)) == if k >= 0 then Success(k) else Failure(ValidationError)
  {
    assert (k as real).Floor == k;
  }

  /** One or two digits of an offset or a fraction: the characters of `s` from `i` on that are digits. */
  function DigitRunEnd(s: string, i: nat): (k: nat)
    requires i <= |s|
    ensures i <= k <= |s| && AllDigits(s[i..k]) && (k == |s| || !IsDigit(s[k]))
    decreases |s| - i
  {
    if i < |s| && IsDigit(s[i]) then
      var k := DigitRunEnd(s, i + 1);
      assert s[i..k] == [s[i]] + s[i + 1..k];
      k
    else i
  }

  /** `Z`, `±hh`, `±hhmm` or `±hh:mm`. */
  predicate IsOffset(t: string) {
    t == "Z" ||
    (&& (|t| == 3 || |t| == 5 || |t| == 6)
     && (t[0] == '+' || t[0] == '-')
     && AllDigits(t[1..3])
     && (|t| == 5 ==> AllDigits(t[3..5]))
     && (|t| == 6 ==> t[3] == ':' && AllDigits(t[4..6])))
  }

  /** `(\.\d+)?` followed by an offset. */
  predicate IsFractionAndOffset(t: string) {
    IsOffset(t) ||
    (|t| >= 2 && t[0] == '.' && DigitRunEnd(t, 1) >= 2 && IsOffset(t[DigitRunEnd(t, 1)..]))
  }

  predicate DigitsAt(s: string, i: nat, n: nat) { i + n <= |s| && forall k :: i <= k < i + n ==> IsDigit(s[k]) }

  /** `YYYY-MM-DD`. */
  predicate IsDatePart(d: string) {
    |d| == 10 && DigitsAt(d, 0, 4) && d[4] == '-' && DigitsAt(d, 5, 2) && d[7] == '-' && DigitsAt(d, 8, 2)
  }

  /** `Thh:mm:ss`, an optional fraction, and the offset. */
  predicate IsTimePart(t: string) {
    && |t| >= 10
    && t[0] == 'T' && DigitsAt(t, 1, 2) && t[3] == ':' && DigitsAt(t, 4, 2) && t[6] == ':' && DigitsAt(t, 7, 2)
    && IsFractionAndOffset(t[9..])
  }

  /**
   * IsoDateTimeSchema, `z.string().datetime({ offset: true })`: the pattern
   * `YYYY-MM-DDThh:mm:ss(\.\d+)?` followed by `Z` or a numeric offset.
   */
  predicate IsIsoDateTime(s: string) {
    |s| >= 20 && IsDatePart(s[..10]) && IsTimePart(s[10..])
  }

  lemma IsoOfParts(date: string, time: string)
    requires IsDatePart(date) && IsTimePart(time)
    ensures IsIsoDateTime(date + time)
  {
    assert (date + time)[..10] == date && (date + time)[10..] == time;
  }

  /** A month key followed by `-` and two digits is a date. */
  lemma DateOfMonth(month: string, dd: string)
    requires IsMonthKey(month) && |dd| == 2 && AllDigits(dd)
    ensures IsDatePart(month + "-" + dd)
  {
    var d := month + "-" + dd;
    assert forall k :: 0 <= k < 7 ==> d[k] == month[k];
    assert forall k :: 0 <= k < 4 ==> IsDigit(month[..4][k]);
    assert d[8] == dd[0] && d[9] == dd[1];
  }

  /** The first and last instants of every month of the years 100..9999 are accepted timestamps. */
  lemma MonthBoundsAreTimestamps(month: string)
    requires IsCenturyKey(month)
    ensures IsIsoDateTime(StartOfMonthIso(month).value)
    ensures IsIsoDateTime(EndOfMonthIso(month).value)
  {
    MonthStartIsTimestamp(month);
    MonthEndIsTimestamp(month, PadDecimal(DaysInMonth(KeyYear(month), KeyMonth(month)), 2));
  }

  lemma MonthStartIsTimestamp(month: string)
    requires IsMonthKey(month)
    ensures IsIsoDateTime(month + "-01T00:00:00.000Z")
  {
    var st := "T00:00:00.000Z";
    assert st[9..] == ".000Z";
    assert DigitRunEnd(".000Z", 1) == 4;
    assert IsTimePart(st);
    DateOfMonth(month, "01");
    assert month + "-01T00:00:00.000Z" == (month + "-" + "01") + st;
    IsoOfParts(month + "-" + "01", st);
  }

  lemma MonthEndIsTimestamp(month: string, dd: string)
    requires IsMonthKey(month) && |dd| == 2 && AllDigits(dd)
    ensures IsIsoDateTime(month + "-" + dd + "T23:59:59.999Z")
  {
    var et := "T23:59:59.999Z";
    assert et[9..] == ".999Z";
    assert DigitRunEnd(".999Z", 1) == 4;
    assert IsTimePart(et);
    DateOfMonth(month, dd);
    assert month + "-" + dd + "T23:59:59.999Z" == (month + "-" + dd) + et;
    IsoOfParts(month + "-" + dd, et);
  }

  /** `z.string().min(1).max(40)`: zod measures `length`, in UTF-16 code units. */
  predicate IsName(s: string) { 1 <= Utf16Length(s) <= 40 }

  /** `z.string().max(500)`, in UTF-16 code units. */
  predicate IsNote(s: string) { Utf16Length(s) <= 500 }

  /**
   * Names are measured as JavaScript measures them: twenty characters above U+FFFF fill the
   * forty code units, and a twenty-first is refused.
   */
  lemma NameBoundCountsCodeUnits()
    ensures var s := seq(20, _ => '\U{1F600}'); |s| == 20 && IsName(s)
    ensures var s := seq(21, _ => '\U{1F600}'); |s| == 21 && !IsName(s)
  {
    Utf16LengthAstral(seq(20, _ => '\U{1F600}'));
    Utf16LengthAstral(seq(21, _ => '\U{1F600}'));
  }

  predicate AllHex(s: string) { forall i :: 0 <= i < |s| ==> IsHexDigit(s[i]) }

  predicate IsLowerHex(c: char) { IsDigit(c) || 'a' <= c <= 'f' }

  /** The pattern of HexColorSchema: `^#?[0-9a-fA-F]{6}$`. */
  predicate IsHexColor(s: string) {
    (|s| == 7 && s[0] == '#' && AllHex(s[1..])) || (|s| == 6 && AllHex(s))
  }

  /** HexColorSchema's transform: lower-case, with a leading `#`. */
  function NormalizeHexColor(s: string): (r: string)
    requires IsHexColor(s)
    ensures |r| == 7 && r[0] == '#'
    ensures r[1..] == ToLower(if |s| == 7 then s[1..] else s)
    ensures forall i :: 1 <= i < 7 ==> IsLowerHex(r[i])
    ensures IsHexColor(r)
  {
    var digits := if |s| > 0 && s[0] == '#' then s[1..] else s;
    LowerOfHex(digits);
    HashPrefixed(ToLower(digits));
    "#" + ToLower(digits)
  }

  lemma LowerOfHex(s: string)
    requires AllHex(s)
    ensures forall i :: 0 <= i < |s| ==> IsLowerHex(ToLower(s)[i])
  {
  }

  lemma HashPrefixed(digits: string)
    requires |digits| == 6 && forall i :: 0 <= i < 6 ==> IsLowerHex(digits[i])
    ensures var r := "#" + digits;
      |r| == 7 && r[0] == '#' && r[1..] == digits && (forall i :: 1 <= i < 7 ==> IsLowerHex(r[i])) && IsHexColor(r)
  {
    var r := "#" + digits;
    assert r[1..] == digits;
    assert forall i :: 1 <= i < 7 ==> r[i] == digits[i - 1];
  }

  /** Normalising a colour twice changes nothing more. */
  lemma NormalizeHexColorIdempotent(s: string)
    requires IsHexColor(s)
    ensures NormalizeHexColor(NormalizeHexColor(s)) == NormalizeHexColor(s)
  {
    var r := NormalizeHexColor(s);
    var rr := NormalizeHexColor(r);
    assert forall i :: 1 <= i < 7 ==> rr[i] == LowerChar(r[i]) == r[i];
  }

  function NormalizeColor(color: Option<string>): Option<string>
    requires color.Some? ==> IsHexColor(color.value)
  {
    if color.Some? then Some(NormalizeHexColor(color.value)) else None
  }

  // ------------------------------------------------------- stored records

  /** `CategorySchema.parse(record)`. */
  function ToCategory(c: Category): (r: Outcome<Category>)
    ensures r.Success? <==>
      IsName(c.name) && (c.color.Some? ==> IsHexColor(c.color.value)) &&
      IsIsoDateTime(c.createdAt) && IsIsoDateTime(c.updatedAt)
    ensures r.Success? ==> r.value == c.(color := NormalizeColor(c.color))
  {
    if IsName(c.name) && (c.color.Some? ==> IsHexColor(c.color.value)) &&
      IsIsoDateTime(c.createdAt) && IsIsoDateTime(c.updatedAt)
    then Success(c.(color := NormalizeColor(c.color)))
    else Failure(ValidationError)
  }

  /** `ExpenseSchema.parse(record)`; it keeps the record as it is. */
  function ToExpense(e: Expense): (r: Outcome<Expense>)
    ensures r.Success? <==>
      e.amountCents >= 0 && e.currency == "EUR" && IsIsoDateTime(e.date) && IsMonthKey(e.month) &&
      (e.note.Some? ==> IsNote(e.note.value)) && IsIsoDateTime(e.createdAt) && IsIsoDateTime(e.updatedAt)
    ensures r.Success? ==> r.value == e
  {
    MoneyOfInteger(e.amountCents);
    if ParseMoney(JNum(e.amountCents as real)).Success? && e.currency == "EUR" && IsIsoDateTime(e.date) &&
      IsMonthKey(e.month) && (e.note.Some? ==> IsNote(e.note.value)) &&
      IsIsoDateTime(e.createdAt) && IsIsoDateTime(e.updatedAt)
    then Success(e)
    else Failure(ValidationError)
  }

  /** `BudgetSchema.parse(record)`; it keeps the record as it is. */
  function ToBudget(b: Budget): (r: Outcome<Budget>)
    ensures r.Success? <==>
      IsMonthKey(b.month) && b.limitCents >= 0 && IsIsoDateTime(b.createdAt) && IsIsoDateTime(b.updatedAt)
    ensures r.Success? ==> r.value == b
  {
    MoneyOfInteger(b.limitCents);
    if IsMonthKey(b.month) && ParseMoney(JNum(b.limitCents as real)).Success? &&
      IsIsoDateTime(b.createdAt) && IsIsoDateTime(b.updatedAt)
    then Success(b)
    else Failure(ValidationError)
  }

  /** `SettingSchema.parse(record)`: a string key and any value. */
  function ToSetting(s: Setting): (r: Outcome<Setting>)
    ensures r == Success(s)
  {
    Success(s)
  }

  /** Reading a category back normalises it once and for all. */
  lemma ToCategoryIdempotent(c: Category)
    requires ToCategory(c).Success?
    ensures ToCategory(ToCategory(c).value) == ToCategory(c)
  {
    if c.color.Some? {
      NormalizeHexColorIdempotent(c.color.value);
    }
  }

  // ------------------------------------------------------- JSON fields

  function Field(f: map<string, Json>, key: string): Option<Json> {
    if key in f then Some(f[key]) else None
  }

  /** `z.string()`. */
  function ReqString(f: map<string, Json>, key: string): (r: Outcome<string>)
    ensures r.Success? <==> key in f && f[key].JStr?
    ensures r.Success? ==> f[key] == JStr(r.value)
  {
    if key in f && f[key].JStr? then Success(f[key].s) else Failure(ValidationError)
  }

  /** `z.string().optional()`. */
  function OptString(f: map<string, Json>, key: string): (r: Outcome<Option<string>>)
    ensures r.Success? <==> key !in f || f[key].JStr?
    ensures r.Success? ==> (r.value.None? <==> key !in f) && (r.value.Some? ==> f[key] == JStr(r.value.value))
  {
    if key !in f then Success(None)
    else if f[key].JStr? then Success(Some(f[key].s))
    else Failure(ValidationError)
  }

  /** `z.boolean().optional()`. */
  function OptBool(f: map<string, Json>, key: string): (r: Outcome<Option<bool>>)
    ensures r.Success? <==> key !in f || f[key].JBool?
    ensures r.Success? ==> (r.value.None? <==> key !in f) && (r.value.Some? ==> f[key] == JBool(r.value.value))
  {
    if key !in f then Success(None)
    else if f[key].JBool? then Success(Some(f[key].b))
    else Failure(ValidationError)
  }

  /** MoneySchema on a required field. */
  function ReqMoney(f: map<string, Json>, key: string): (r: Outcome<int>)
    ensures r.Success? <==> key in f && ParseMoney(f[key]).Success?
    ensures r.Success? ==> r == ParseMoney(f[key])
  {
    if key in f then ParseMoney(f[key]) else Failure(ValidationError)
  }

  /** `MoneySchema.optional()`. */
  function OptMoney(f: map<string, Json>, key: string): (r: Outcome<Option<int>>)
    ensures r.Success? <==> key !in f || ParseMoney(f[key]).Success?
    ensures r.Success? ==> (r.value.None? <==> key !in f) && (r.value.Some? ==> ParseMoney(f[key]) == Success(r.value.value))
  {
    if key !in f then Success(None)
    else
      var v :- ParseMoney(f[key]);
      Success(Some(v))
  }

  /** `z.string().min(1).max(40)`. */
  function ReqName(f: map<string, Json>, key: string): (r: Outcome<string>)
    ensures r.Success? <==> key in f && f[key].JStr? && IsName(f[key].s)
    ensures r.Success? ==> f[key] == JStr(r.value)
  {
    var s :- ReqString(f, key);
    if IsName(s) then Success(s) else Failure(ValidationError)
  }

  /** `z.string().min(1).max(40).optional()`. */
  function OptName(f: map<string, Json>, key: string): (r: Outcome<Option<string>>)
    ensures r.Success? <==> key !in f || (f[key].JStr? && IsName(f[key].s))
    ensures r.Success? ==> (r.value.None? <==> key !in f) && (r.value.Some? ==> f[key] == JStr(r.value.value))
  {
    if key !in f then Success(None) else var s :- ReqName(f, key); Success(Some(s))
  }

  /** `z.string().max(500).optional()`. */
  function OptNote(f: map<string, Json>, key: string): (r: Outcome<Option<string>>)
    ensures r.Success? <==> key !in f || (f[key].JStr? && IsNote(f[key].s))
    ensures r.Success? ==> (r.value.None? <==> key !in f) && (r.value.Some? ==> f[key] == JStr(r.value.value))
  {
    var s :- OptString(f, key);
    if s.Some? && !IsNote(s.value) then Failure(ValidationError) else Success(s)
  }

  /** MonthKeySchema on a required field. */
  function ReqMonthKey(f: map<string, Json>, key: string): (r: Outcome<string>)
    ensures r.Success? <==> key in f && f[key].JStr? && IsMonthKey(f[key].s)
    ensures r.Success? ==> f[key] == JStr(r.value)
  {
    var s :- ReqString(f, key);
    if IsMonthKey(s) then Success(s) else Failure(ValidationError)
  }

  /** `MonthKeySchema.optional()`. */
  function OptMonthKey(f: map<string, Json>, key: string): (r: Outcome<Option<string>>)
    ensures r.Success? <==> key !in f || (f[key].JStr? && IsMonthKey(f[key].s))
    ensures r.Success? ==> (r.value.None? <==> key !in f) && (r.value.Some? ==> f[key] == JStr(r.value.value))
  {
    if key !in f then Success(None) else var s :- ReqMonthKey(f, key); Success(Some(s))
  }

  /** IsoDateTimeSchema on a required field. */
  function ReqDateTime(f: map<string, Json>, key: string): (r: Outcome<string>)
    ensures r.Success? <==> key in f && f[key].JStr? && IsIsoDateTime(f[key].s)
    ensures r.Success? ==> f[key] == JStr(r.value)
  {
    var s :- ReqString(f, key);
    if IsIsoDateTime(s) then Success(s) else Failure(ValidationError)
  }

  /** `IsoDateTimeSchema.optional()`. */
  function OptDateTime(f: map<string, Json>, key: string): (r: Outcome<Option<string>>)
    ensures r.Success? <==> key !in f || (f[key].JStr? && IsIsoDateTime(f[key].s))
    ensures r.Success? ==> (r.value.None? <==> key !in f) && (r.value.Some? ==> f[key] == JStr(r.value.value))
  {
    if key !in f then Success(None) else var s :- ReqDateTime(f, key); Success(Some(s))
  }

  /** `HexColorSchema.optional()`: absent, or a colour that is then normalised. */
  function OptColor(f: map<string, Json>, key: string): (r: Outcome<Option<string>>)
    ensures r.Success? <==> key !in f || (f[key].JStr? && IsHexColor(f[key].s))
    ensures r.Success? ==>
      && (r.value.None? <==> key !in f)
      && (r.value.Some? ==> r.value.value == NormalizeHexColor(f[key].s))
  {
    var s :- OptString(f, key);
    if s.None? then Success(None)
    else if IsHexColor(s.value) then Success(Some(NormalizeHexColor(s.value)))
    else Failure(ValidationError)
  }

  /** The three states of a `.nullable().optional()` field. */
  datatype Nullish<+T> = Undefined | Null | Value(value: T)

  /** `HexColorSchema.nullable().optional()`. */
  function NullishColor(f: map<string, Json>, key: string): (r: Outcome<Nullish<string>>)
    ensures r.Success? <==> key !in f || f[key] == JNull || (f[key].JStr? && IsHexColor(f[key].s))
    ensures r.Success? ==> (r.value.Undefined? <==> key !in f) && (r.value.Null? <==> key in f && f[key] == JNull)
    ensures r.Success? && r.value.Value? ==> r.value.value == NormalizeHexColor(f[key].s)
  {
    if key in f && f[key] == JNull then Success(Null)
    else
      var c :- OptColor(f, key);
      if c.Some? then Success(Value(c.value)) else Success(Undefined)
  }

  // ------------------------------------------------------- stored records as JSON

  /** CategorySchema on an `unknown` value: its JSON shape, then the record validator. */
  function ParseCategory(j: Json): (r: Outcome<Category>)
    ensures r.Success? ==> ToCategory(r.value) == Success(r.value)
  {
    if !j.JObj? then Failure(ValidationError)
    else
      var f := j.fields;
      var id :- ReqString(f, "id");
      var name :- ReqString(f, "name");
      var color :- OptString(f, "color");
      var isHidden :- OptBool(f, "isHidden");
      var createdAt :- ReqString(f, "createdAt");
      var updatedAt :- ReqString(f, "updatedAt");
      var c := Category(id, name, color, isHidden.GetOr(false), createdAt, updatedAt);
      if ToCategory(c).Success? then ToCategoryIdempotent(c); ToCategory(c) else ToCategory(c)
  }

  /** ExpenseSchema on an `unknown` value. */
  function ParseExpense(j: Json): (r: Outcome<Expense>)
    ensures r.Success? ==> ToExpense(r.value) == Success(r.value)
  {
    if !j.JObj? then Failure(ValidationError)
    else
      var f := j.fields;
      var id :- ReqString(f, "id");
      var amountCents :- ReqMoney(f, "amountCents");
      var currency :- ReqString(f, "currency");
      var date :- ReqString(f, "date");
      var month :- ReqString(f, "month");
      var categoryId :- ReqString(f, "categoryId");
      var note :- OptString(f, "note");
      var createdAt :- ReqString(f, "createdAt");
      var updatedAt :- ReqString(f, "updatedAt");
      ToExpense(Expense(id, amountCents, currency, date, month, categoryId, note, createdAt, updatedAt))
  }

  /** BudgetSchema on an `unknown` value; `carryOverPrev` defaults to false. */
  function ParseBudget(j: Json): (r: Outcome<Budget>)
    ensures r.Success? ==> ToBudget(r.value) == Success(r.value)
    ensures r.Success? && j.JObj? && "carryOverPrev" !in j.fields ==> !r.value.carryOverPrev
  {
    if !j.JObj? then Failure(ValidationError)
    else
      var f := j.fields;
      var id :- ReqString(f, "id");
      var month :- ReqString(f, "month");
      var categoryId :- ReqString(f, "categoryId");
      var limitCents :- ReqMoney(f, "limitCents");
      var carryOverPrev :- OptBool(f, "carryOverPrev");
      var createdAt :- ReqString(f, "createdAt");
      var updatedAt :- ReqString(f, "updatedAt");
      ToBudget(Budget(id, month, categoryId, limitCents, carryOverPrev.GetOr(false), createdAt, updatedAt))
  }

  /** SettingSchema on an `unknown` value: a string key; the value may be anything, or absent. */
  function ParseSetting(j: Json): (r: Outcome<Setting>)
    ensures r.Success? <==> j.JObj? && "key" in j.fields && j.fields["key"].JStr?
    ensures r.Success? ==> r.value.key == j.fields["key"].s && r.value.value == Field(j.fields, "value")
  {
    if !j.JObj? then Failure(ValidationError)
    else
      var key :- ReqString(j.fields, "key");
      Success(Setting(key, Field(j.fields, "value")))
  }

  /** The JSON object a category record is. */
  function CategoryJson(c: Category): Json {
    var m := map["id" := JStr(c.id), "name" := JStr(c.name), "isHidden" := JBool(c.isHidden),
                 "createdAt" := JStr(c.createdAt), "updatedAt" := JStr(c.updatedAt)];
    JObj(if c.color.Some? then m["color" := JStr(c.color.value)] else m)
  }

  function ExpenseJson(e: Expense): Json {
    var m := map["id" := JStr(e.id), "amountCents" := JNum(e.amountCents as real),
                 "currency" := JStr(e.currency), "date" := JStr(e.date), "month" := JStr(e.month),
                 "categoryId" := JStr(e.categoryId), "createdAt" := JStr(e.createdAt),
                 "updatedAt" := JStr(e.updatedAt)];
    JObj(if e.note.Some? then m["note" := JStr(e.note.value)] else m)
  }

  function BudgetJson(b: Budget): Json {
    JObj(map["id" := JStr(b.id), "month" := JStr(b.month), "categoryId" := JStr(b.categoryId),
             "limitCents" := JNum(b.limitCents as real), "carryOverPrev" := JBool(b.carryOverPrev),
             "createdAt" := JStr(b.createdAt), "updatedAt" := JStr(b.updatedAt)])
  }

  function SettingJson(s: Setting): Json {
    JObj(if s.value.Some? then map["key" := JStr(s.key), "value" := s.value.value] else map["key" := JStr(s.key)])
  }

  /** Parsing a record's JSON is reading the record: the two parsers agree. */
  lemma ParseCategoryJson(c: Category)
    ensures ParseCategory(CategoryJson(c)) == ToCategory(c)
  {
    var f := CategoryJson(c).fields;
    assert f["id"] == JStr(c.id) && f["name"] == JStr(c.name) && f["isHidden"] == JBool(c.isHidden);
    assert f["createdAt"] == JStr(c.createdAt) && f["updatedAt"] == JStr(c.updatedAt);
    assert c.color.None? <==> "color" !in f;
    assert c.color.Some? ==> f["color"] == JStr(c.color.value);
  }

  lemma ParseExpenseJson(e: Expense)
    ensures ParseExpense(ExpenseJson(e)) == ToExpense(e)
  {
    var f := ExpenseJson(e).fields;
    MoneyOfInteger(e.amountCents);
    assert f["id"] == JStr(e.id) && f["amountCents"] == JNum(e.amountCents as real);
    assert f["currency"] == JStr(e.currency) && f["date"] == JStr(e.date) && f["month"] == JStr(e.month);
    assert f["categoryId"] == JStr(e.categoryId);
    assert f["createdAt"] == JStr(e.createdAt) && f["updatedAt"] == JStr(e.updatedAt);
    assert e.note.None? <==> "note" !in f;
    assert e.note.Some? ==> f["note"] == JStr(e.note.value);
  }

  lemma ParseBudgetJson(b: Budget)
    ensures ParseBudget(BudgetJson(b)) == ToBudget(b)
  {
    var f := BudgetJson(b).fields;
    MoneyOfInteger(b.limitCents);
    assert f["id"] == JStr(b.id) && f["month"] == JStr(b.month) && f["categoryId"] == JStr(b.categoryId);
    assert f["limitCents"] == JNum(b.limitCents as real) && f["carryOverPrev"] == JBool(b.carryOverPrev);
    assert f["createdAt"] == JStr(b.createdAt) && f["updatedAt"] == JStr(b.updatedAt);
  }

  lemma ParseSettingJson(s: Setting)
    ensures ParseSetting(SettingJson(s)) == Success(s)
  {
  }

  // ------------------------------------------------------- create and update inputs

  datatype CategoryCreate = CategoryCreate(id: Option<string>, name: string, color: Option<string>, isHidden: Option<bool>)

  datatype CategoryPatch = CategoryPatch(name: Option<string>, color: Nullish<string>, isHidden: Option<bool>)

  datatype ExpenseCreate = ExpenseCreate(
    id: Option<string>, amountCents: int, currency: string, date: string, month: Option<string>,
    categoryId: string, note: Option<string>)

  datatype ExpensePatch = ExpensePatch(
    amountCents: Option<int>, date: Option<string>, month: Option<string>, categoryId: Option<string>,
    note: Option<string>)

  datatype BudgetCreate = BudgetCreate(
    id: Option<string>, month: string, categoryId: string, limitCents: int, carryOverPrev: Option<bool>)

  datatype BudgetPatch = BudgetPatch(limitCents: Option<int>, carryOverPrev: Option<bool>)

  const CategoryCreateKeys: set<string> := {"id", "name", "color", "isHidden"}
  const CategoryUpdateKeys: set<string> := {"name", "color", "isHidden"}
  const ExpenseCreateKeys: set<string> := {"id", "amountCents", "currency", "date", "month", "categoryId", "note"}
  const ExpenseUpdateKeys: set<string> := {"amountCents", "date", "month", "categoryId", "note"}
  const BudgetCreateKeys: set<string> := {"id", "month", "categoryId", "limitCents", "carryOverPrev"}
  const BudgetUpdateKeys: set<string> := {"limitCents", "carryOverPrev"}

  /** An object whose keys all belong to `keys`: what `.strict()` demands of its input. */
  predicate IsStrictObject(j: Json, keys: set<string>) {
    j.JObj? && j.fields.Keys <= keys
  }

  /** CategoryCreateSchema. */
  function ParseCategoryCreate(j: Json): (r: Outcome<CategoryCreate>)
    ensures r.Success? <==>
      IsStrictObject(j, CategoryCreateKeys) && OptString(j.fields, "id").Success? &&
      ReqName(j.fields, "name").Success? && OptColor(j.fields, "color").Success? &&
      OptBool(j.fields, "isHidden").Success?
    ensures r.Success? ==>
      r.value == CategoryCreate(OptString(j.fields, "id").value, ReqName(j.fields, "name").value,
        OptColor(j.fields, "color").value, OptBool(j.fields, "isHidden").value)
  {
    if !IsStrictObject(j, CategoryCreateKeys) then Failure(ValidationError)
    else
      var f := j.fields;
      var id :- OptString(f, "id");
      var name :- ReqName(f, "name");
      var color :- OptColor(f, "color");
      var isHidden :- OptBool(f, "isHidden");
      Success(CategoryCreate(id, name, color, isHidden))
  }

  /** CategoryUpdateSchema. */
  function ParseCategoryUpdate(j: Json): (r: Outcome<CategoryPatch>)
    ensures r.Success? <==>
      IsStrictObject(j, CategoryUpdateKeys) && OptName(j.fields, "name").Success? &&
      NullishColor(j.fields, "color").Success? && OptBool(j.fields, "isHidden").Success?
    ensures r.Success? ==>
      r.value == CategoryPatch(OptName(j.fields, "name").value, NullishColor(j.fields, "color").value,
        OptBool(j.fields, "isHidden").value)
  {
    if !IsStrictObject(j, CategoryUpdateKeys) then Failure(ValidationError)
    else
      var f := j.fields;
      var name :- OptName(f, "name");
      var color :- NullishColor(f, "color");
      var isHidden :- OptBool(f, "isHidden");
      Success(CategoryPatch(name, color, isHidden))
  }

  /** `CurrencySchema.optional().default('EUR')`: absent means "EUR", anything else must be "EUR". */
  function DefaultCurrency(f: map<string, Json>, key: string): (r: Outcome<string>)
    ensures r.Success? <==> key !in f || f[key] == JStr("EUR")
    ensures r.Success? ==> r.value == "EUR"
  {
    if key !in f || f[key] == JStr("EUR") then Success("EUR") else Failure(ValidationError)
  }

  /** ExpenseCreateSchema. */
  function ParseExpenseCreate(j: Json): (r: Outcome<ExpenseCreate>)
    ensures r.Success? <==>
      IsStrictObject(j, ExpenseCreateKeys) && OptString(j.fields, "id").Success? &&
      ReqMoney(j.fields, "amountCents").Success? && DefaultCurrency(j.fields, "currency").Success? &&
      ReqDateTime(j.fields, "date").Success? && OptMonthKey(j.fields, "month").Success? &&
      ReqString(j.fields, "categoryId").Success? && OptNote(j.fields, "note").Success?
    ensures r.Success? ==>
      r.value == ExpenseCreate(OptString(j.fields, "id").value, ReqMoney(j.fields, "amountCents").value, "EUR",
        ReqDateTime(j.fields, "date").value, OptMonthKey(j.fields, "month").value,
        ReqString(j.fields, "categoryId").value, OptNote(j.fields, "note").value)
  {
    if !IsStrictObject(j, ExpenseCreateKeys) then Failure(ValidationError)
    else
      var f := j.fields;
      var id :- OptString(f, "id");
      var amountCents :- ReqMoney(f, "amountCents");
      var currency :- DefaultCurrency(f, "currency");
      var date :- ReqDateTime(f, "date");
      var month :- OptMonthKey(f, "month");
      var categoryId :- ReqString(f, "categoryId");
      var note :- OptNote(f, "note");
      Success(ExpenseCreate(id, amountCents, currency, date, month, categoryId, note))
  }

  /** ExpenseUpdateSchema. */
  function ParseExpenseUpdate(j: Json): (r: Outcome<ExpensePatch>)
    ensures r.Success? <==>
      IsStrictObject(j, ExpenseUpdateKeys) && OptMoney(j.fields, "amountCents").Success? &&
      OptDateTime(j.fields, "date").Success? && OptMonthKey(j.fields, "month").Success? &&
      OptString(j.fields, "categoryId").Success? && OptNote(j.fields, "note").Success?
    ensures r.Success? ==>
      r.value == ExpensePatch(OptMoney(j.fields, "amountCents").value, OptDateTime(j.fields, "date").value,
        OptMonthKey(j.fields, "month").value, OptString(j.fields, "categoryId").value,
        OptNote(j.fields, "note").value)
  {
    if !IsStrictObject(j, ExpenseUpdateKeys) then Failure(ValidationError)
    else
      var f := j.fields;
      var amountCents :- OptMoney(f, "amountCents");
      var date :- OptDateTime(f, "date");
      var month :- OptMonthKey(f, "month");
      var categoryId :- OptString(f, "categoryId");
      var note :- OptNote(f, "note");
      Success(ExpensePatch(amountCents, date, month, categoryId, note))
  }

  /** BudgetCreateSchema. */
  function ParseBudgetCreate(j: Json): (r: Outcome<BudgetCreate>)
    ensures r.Success? <==>
      IsStrictObject(j, BudgetCreateKeys) && OptString(j.fields, "id").Success? &&
      ReqMonthKey(j.fields, "month").Success? && ReqString(j.fields, "categoryId").Success? &&
      ReqMoney(j.fields, "limitCents").Success? && OptBool(j.fields, "carryOverPrev").Success?
    ensures r.Success? ==>
      r.value == BudgetCreate(OptString(j.fields, "id").value, ReqMonthKey(j.fields, "month").value,
        ReqString(j.fields, "categoryId").value, ReqMoney(j.fields, "limitCents").value,
        OptBool(j.fields, "carryOverPrev").value)
  {
    if !IsStrictObject(j, BudgetCreateKeys) then Failure(ValidationError)
    else
      var f := j.fields;
      var id :- OptString(f, "id");
      var month :- ReqMonthKey(f, "month");
      var categoryId :- ReqString(f, "categoryId");
      var limitCents :- ReqMoney(f, "limitCents");
      var carryOverPrev :- OptBool(f, "carryOverPrev");
      Success(BudgetCreate(id, month, categoryId, limitCents, carryOverPrev))
  }

  /** BudgetUpdateSchema: only the limit and the carry-over flag may be patched. */
  function ParseBudgetUpdate(j: Json): (r: Outcome<BudgetPatch>)
    ensures r.Success? <==>
      IsStrictObject(j, BudgetUpdateKeys) && OptMoney(j.fields, "limitCents").Success? &&
      OptBool(j.fields, "carryOverPrev").Success?
    ensures r.Success? ==>
      r.value == BudgetPatch(OptMoney(j.fields, "limitCents").value, OptBool(j.fields, "carryOverPrev").value)
  {
    if !IsStrictObject(j, BudgetUpdateKeys) then Failure(ValidationError)
    else
      var f := j.fields;
      var limitCents :- OptMoney(f, "limitCents");
      var carryOverPrev :- OptBool(f, "carryOverPrev");
      Success(BudgetPatch(limitCents, carryOverPrev))
  }

  /** A budget patch naming the month or the category is refused: those cannot be changed. */
  lemma BudgetUpdateRejectsKeyChanges(j: Json)
    requires j.JObj? && ("month" in j.fields || "categoryId" in j.fields || "id" in j.fields)
    ensures ParseBudgetUpdate(j).Failure?
  {
  }

  // ------------------------------------------------------- backups

  /** `z.array(schema)`: a JSON array whose every element the schema accepts. */
  function ParseArray<T>(f: map<string, Json>, key: string, parse: Json -> Outcome<T>): (r: Outcome<seq<T>>)
    ensures r.Success? <==> key in f && f[key].JArr? && TryMap(f[key].items, parse).Success?
    ensures r.Success? ==> r == TryMap(f[key].items, parse)
  {
    if key in f && f[key].JArr? then TryMap(f[key].items, parse) else Failure(ValidationError)
  }

  /** BackupSchema: version exactly 1, an accepted timestamp, and four arrays of valid records. */
  function ParseBackup(j: Json): (r: Outcome<BackupPayload>)
    ensures r.Success? ==> j.JObj? && "version" in j.fields && j.fields["version"] == JNum(1.0)
    ensures r.Success? ==> r.value.version == 1 && IsIsoDateTime(r.value.exportedAt)
    ensures r.Success? ==> IsNormalPayload(r.value)
  {
    if !j.JObj? then Failure(ValidationError)
    else
      var f := j.fields;
      if !("version" in f && f["version"] == JNum(1.0)) then Failure(ValidationError)
      else
        var exportedAt :- ReqDateTime(f, "exportedAt");
        var categories :- ParseArray(f, "categories", ParseCategory);
        var budgets :- ParseArray(f, "budgets", ParseBudget);
        var expenses :- ParseArray(f, "expenses", ParseExpense);
        var settings :- ParseArray(f, "settings", ParseSetting);
        Success(BackupPayload(1, exportedAt, categories, budgets, expenses, settings))
  }

  /** Every record of the payload is as its schema would output it. */
  predicate IsNormalPayload(p: BackupPayload) {
    && (forall i :: 0 <= i < |p.categories| ==> ToCategory(p.categories[i]) == Success(p.categories[i]))
    && (forall i :: 0 <= i < |p.budgets| ==> ToBudget(p.budgets[i]) == Success(p.budgets[i]))
    && (forall i :: 0 <= i < |p.expenses| ==> ToExpense(p.expenses[i]) == Success(p.expenses[i]))
  }

  function CategoriesJson(cs: seq<Category>): seq<Json> {
    seq(|cs|, i requires 0 <= i < |cs| => CategoryJson(cs[i]))
  }

  function BudgetsJson(bs: seq<Budget>): seq<Json> {
    seq(|bs|, i requires 0 <= i < |bs| => BudgetJson(bs[i]))
  }

  function ExpensesJson(es: seq<Expense>): seq<Json> {
    seq(|es|, i requires 0 <= i < |es| => ExpenseJson(es[i]))
  }

  function SettingsJson(ss: seq<Setting>): seq<Json> {
    seq(|ss|, i requires 0 <= i < |ss| => SettingJson(ss[i]))
  }

  /** The JSON value a backup payload is. */
  function BackupJson(p: BackupPayload): Json {
    JObj(map[
      "version" := JNum(p.version as real),
      "exportedAt" := JStr(p.exportedAt),
      "categories" := JArr(CategoriesJson(p.categories)),
      "budgets" := JArr(BudgetsJson(p.budgets)),
      "expenses" := JArr(ExpensesJson(p.expenses)),
      "settings" := JArr(SettingsJson(p.settings))])
  }

  /** Each array of normalised records survives being written out and parsed back. */
  lemma CategoriesRoundTrip(cs: seq<Category>)
    requires forall i :: 0 <= i < |cs| ==> ToCategory(cs[i]) == Success(cs[i])
    ensures TryMap(CategoriesJson(cs), ParseCategory) == Success(cs)
  {
    var js := CategoriesJson(cs);
    forall i | 0 <= i < |js| ensures ParseCategory(js[i]) == Success(cs[i]) {
      ParseCategoryJson(cs[i]);
    }
    TryMapPointwise(js, ParseCategory, cs);
  }

  lemma BudgetsRoundTrip(bs: seq<Budget>)
    requires forall i :: 0 <= i < |bs| ==> ToBudget(bs[i]) == Success(bs[i])
    ensures TryMap(BudgetsJson(bs), ParseBudget) == Success(bs)
  {
    var js := BudgetsJson(bs);
    forall i | 0 <= i < |js| ensures ParseBudget(js[i]) == Success(bs[i]) {
      ParseBudgetJson(bs[i]);
    }
    TryMapPointwise(js, ParseBudget, bs);
  }

  lemma ExpensesRoundTrip(es: seq<Expense>)
    requires forall i :: 0 <= i < |es| ==> ToExpense(es[i]) == Success(es[i])
    ensures TryMap(ExpensesJson(es), ParseExpense) == Success(es)
  {
    var js := ExpensesJson(es);
    forall i | 0 <= i < |js| ensures ParseExpense(js[i]) == Success(es[i]) {
      ParseExpenseJson(es[i]);
    }
    TryMapPointwise(js, ParseExpense, es);
  }

  lemma SettingsRoundTrip(ss: seq<Setting>)
    ensures TryMap(SettingsJson(ss), ParseSetting) == Success(ss)
  {
    var js := SettingsJson(ss);
    forall i | 0 <= i < |js| ensures ParseSetting(js[i]) == Success(ss[i]) {
      ParseSettingJson(ss[i]);
    }
    TryMapPointwise(js, ParseSetting, ss);
  }

  lemma BackupJsonCategories(p: BackupPayload)
    requires forall i :: 0 <= i < |p.categories| ==> ToCategory(p.categories[i]) == Success(p.categories[i])
    ensures ParseArray(BackupJson(p).fields, "categories", ParseCategory) == Success(p.categories)
  {
    CategoriesRoundTrip(p.categories);
  }

  lemma BackupJsonBudgets(p: BackupPayload)
    requires forall i :: 0 <= i < |p.budgets| ==> ToBudget(p.budgets[i]) == Success(p.budgets[i])
    ensures ParseArray(BackupJson(p).fields, "budgets", ParseBudget) == Success(p.budgets)
  {
    BudgetsRoundTrip(p.budgets);
  }

  lemma BackupJsonExpenses(p: BackupPayload)
    requires forall i :: 0 <= i < |p.expenses| ==> ToExpense(p.expenses[i]) == Success(p.expenses[i])
    ensures ParseArray(BackupJson(p).fields, "expenses", ParseExpense) == Success(p.expenses)
  {
    ExpensesRoundTrip(p.expenses);
  }

  lemma BackupJsonSettings(p: BackupPayload)
    ensures ParseArray(BackupJson(p).fields, "settings", ParseSetting) == Success(p.settings)
  {
    SettingsRoundTrip(p.settings);
  }

  /** ParseBackup on the JSON of a payload whose four arrays parse back to themselves. */
  lemma ParseBackupJson(p: BackupPayload)
    requires p.version == 1 && IsIsoDateTime(p.exportedAt)
    requires ParseArray(BackupJson(p).fields, "categories", ParseCategory) == Success(p.categories)
    requires ParseArray(BackupJson(p).fields, "budgets", ParseBudget) == Success(p.budgets)
    requires ParseArray(BackupJson(p).fields, "expenses", ParseExpense) == Success(p.expenses)
    requires ParseArray(BackupJson(p).fields, "settings", ParseSetting) == Success(p.settings)
    ensures ParseBackup(BackupJson(p)) == Success(p)
  {
    var f := BackupJson(p).fields;
    assert f["version"] == JNum(1.0);
    assert f["exportedAt"] == JStr(p.exportedAt);
    ParseBackupOfFields(BackupJson(p), p);
  }

  /** ParseBackup accepts an object whose version is 1 and whose other fields parse to the payload's. */
  lemma ParseBackupOfFields(j: Json, p: BackupPayload)
    requires p.version == 1 && j.JObj? && "version" in j.fields && j.fields["version"] == JNum(1.0)
    requires ReqDateTime(j.fields, "exportedAt") == Success(p.exportedAt)
    requires ParseArray(j.fields, "categories", ParseCategory) == Success(p.categories)
    requires ParseArray(j.fields, "budgets", ParseBudget) == Success(p.budgets)
    requires ParseArray(j.fields, "expenses", ParseExpense) == Success(p.expenses)
    requires ParseArray(j.fields, "settings", ParseSetting) == Success(p.settings)
    ensures ParseBackup(j) == Success(p)
  {
  }

  /** A version 1 payload of normalised records survives being written out as JSON and parsed back. */
  lemma BackupRoundTrip(p: BackupPayload)
    requires p.version == 1 && IsIsoDateTime(p.exportedAt) && IsNormalPayload(p)
    ensures ParseBackup(BackupJson(p)) == Success(p)
  {
    BackupJsonCategories(p);
    BackupJsonBudgets(p);
    BackupJsonExpenses(p);
    BackupJsonSettings(p);
    ParseBackupJson(p);
  }

  /** A backup of any other version is refused. */
  lemma BackupRejectsOtherVersions(p: BackupPayload)
    requires p.version != 1
    ensures ParseBackup(BackupJson(p)).Failure?
  {
    assert BackupJson(p).fields["version"] != JNum(1.0);
  }
}
