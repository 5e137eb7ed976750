/**
 * Month keys ("YYYY-MM") and their arithmetic (src/utils/dates.ts).
 *
 * `shiftMonthKey`, `startOfMonthIso` and `endOfMonthIso` go through `Date.UTC(...)` and
 * `toISOString()`; the model writes out what those do on the values that reach them:
 *   - `Date.UTC` reads a year 0..99 as 1900..1999 (FullYear);
 *   - month overflow and underflow carry into the year (floor division by 12);
 *   - a time value beyond the Date range makes `toISOString` throw "Invalid time value";
 *   - years outside 0..9999 are printed as a sign and six digits (IsoYear), so the
 *     seven-character prefix taken by `slice(0, 7)` is then not a month key.
 * `getMonthKey` on a canonical UTC timestamp is its seven-character prefix.
 */
module Dates {
  import opened Wrappers
  import opened Strings
  import opened Records

  /** `^\d{4}-(0[1-9]|1[0-2])$`; also the pattern of MonthKeySchema. */
  predicate IsMonthKey(s: string) {
    && |s| == 7
    && AllDigits(s[..4])
    && s[4] == '-'
    && ((s[5] == '0' && '1' <= s[6] <= '9') || (s[5] == '1' && '0' <= s[6] <= '2'))
  }

  /** `ensureMonthKey`: the input itself when it is a month key, otherwise an error. */
  function EnsureMonthKey(month: string): (r: Outcome<string>)
    ensures r.Success? <==> IsMonthKey(month)
    ensures r.Success? ==> r.value == month
    ensures r.Failure? ==> r.error == Thrown("Invalid month key: " + month)
  {
    if IsMonthKey(month) then Success(month) else Failure(Thrown("Invalid month key: " + month))
  }

  /** The year and month numbers of a key, as `Number.parseInt(_, 10)` reads them. */
  function KeyYear(m: string): (y: nat)
    requires IsMonthKey(m)
    ensures y <= 9999
  {
    DecimalBound(m[..4]);
    assert Pow10(4) == 10000;
    DecimalValue(m[..4])
  }

  function KeyMonth(m: string): (mo: nat)
    requires IsMonthKey(m)
    ensures 1 <= mo <= 12
  {
    assert AllDigits(m[5..7]);
    DecimalValueOfTwo(m[5..7]);
    DecimalValue(m[5..7])
  }

  /** The month's position on the line of months: 12 * year + (month - 1). */
  function MonthIndex(m: string): int
    requires IsMonthKey(m)
  {
    12 * KeyYear(m) + KeyMonth(m) - 1
  }

  /** The key of a month index whose year is in 0..9999. */
  function KeyOfIndex(t: int): string
    requires 0 <= t < 120000
  {
    PadDecimal(t / 12, 4) + "-" + PadDecimal(t % 12 + 1, 2)
  }

  /** Date.UTC's reading of a year argument. */
  function FullYear(y: int): int {
    if 0 <= y <= 99 then 1900 + y else y
  }

  /** The year field of `toISOString()`. */
  function IsoYear(y: int): (r: string)
    ensures |r| == (if 0 <= y <= 9999 then 4 else 7)
  {
    if 0 <= y <= 9999 then PadDecimal(y, 4)
    else if y < 0 then "-" + PadDecimal(-y, 6)
    else "+" + PadDecimal(y, 6)
  }

  /** `toISOString()` of the first day of month index `t`, up to the month field. */
  function IsoYearMonth(t: int): (r: string)
    ensures |r| >= 7
  {
    IsoYear(t / 12) + "-" + PadDecimal(t % 12 + 1, 2)
  }

  /** The first and last month indexes whose first day lies in the range of a Date. */
  const MinTimeMonth: int := 12 * -271821 + 4
  const MaxTimeMonth: int := 12 * 275760 + 8

  /** `shiftMonthKey(month, offset)`. */
  function ShiftMonthKey(month: string, offset: int): (r: Outcome<string>)
    ensures !IsMonthKey(month) ==> r == Failure(Thrown("Invalid month key: " + month))
    ensures r.Success? ==> |r.value| == 7
  {
    if !IsMonthKey(month) then Failure(Thrown("Invalid month key: " + month))
    else
      var t := 12 * FullYear(KeyYear(month)) + KeyMonth(month) - 1 + offset;
      if t < MinTimeMonth || t > MaxTimeMonth then Failure(Thrown("Invalid time value"))
      else Success(IsoYearMonth(t)[..7])
  }

  /** `getPreviousMonthKey(month)`: the month one step back, or ensureMonthKey's error. */
  function GetPreviousMonthKey(month: string): (r: Outcome<string>)
    ensures !IsMonthKey(month) ==> r == Failure(Thrown("Invalid month key: " + month))
    ensures IsCenturyKey(month) ==>
      r.Success? && IsMonthKey(r.value) && MonthIndex(r.value) == MonthIndex(month) - 1
  {
    assert IsCenturyKey(month) ==> ShiftLands(month, -1) by {
      if IsCenturyKey(month) { ShiftStep(month, -1); }
    }
    ShiftMonthKey(month, -1)
  }

  /** `getNextMonthKey(month)`: the month one step on, or ensureMonthKey's error. */
  function GetNextMonthKey(month: string): (r: Outcome<string>)
    ensures !IsMonthKey(month) ==> r == Failure(Thrown("Invalid month key: " + month))
    ensures IsCenturyKey(month) && MonthIndex(month) + 1 < 120000 ==>
      r.Success? && IsMonthKey(r.value) && MonthIndex(r.value) == MonthIndex(month) + 1
  {
    assert IsCenturyKey(month) && MonthIndex(month) + 1 < 120000 ==> ShiftLands(month, 1) by {
      if IsCenturyKey(month) && MonthIndex(month) + 1 < 120000 { ShiftStep(month, 1); }
    }
    ShiftMonthKey(month, 1)
  }

  /** Shifting lands on the month key whose index is `offset` further on. */
  predicate ShiftLands(month: string, offset: int) {
    var r := ShiftMonthKey(month, offset);
    IsMonthKey(month) && r.Success? && IsMonthKey(r.value) && MonthIndex(r.value) == MonthIndex(month) + offset
  }

  lemma ShiftStep(month: string, offset: int)
    requires IsCenturyKey(month) && 0 <= MonthIndex(month) + offset < 120000
    ensures ShiftLands(month, offset)
  {
    ShiftMonthKeyIndex(month, offset);
    KeyOfIndexRoundTrip(MonthIndex(month) + offset);
  }

  /** A month key whose year lies in 100..9999, where Date.UTC reads the year as written. */
  predicate IsCenturyKey(m: string) {
    IsMonthKey(m) && KeyYear(m) >= 100
  }

  lemma {:induction false} PadDecimalOfValue(s: string)
    requires AllDigits(s)
    ensures PadDecimal(DecimalValue(s), |s|) == s
  {
    if s != [] {
      var p := s[..|s| - 1];
      PadDecimalOfValue(p);
      var v := DecimalValue(p) * 10 + DigitValue(s[|s| - 1]);
      assert v / 10 == DecimalValue(p) && v % 10 == DigitValue(s[|s| - 1]);
      assert s == p + [s[|s| - 1]];
    }
  }

  /** Every month index of years 0..9999 has a key, and reading the key gives the index back. */
  lemma KeyOfIndexRoundTrip(t: int)
    requires 0 <= t < 120000
    ensures IsMonthKey(KeyOfIndex(t))
    ensures MonthIndex(KeyOfIndex(t)) == t
  {
    var k := KeyOfIndex(t);
    var y, mo := PadDecimal(t / 12, 4), PadDecimal(t % 12 + 1, 2);
    assert Pow10(4) == 10000 && Pow10(2) == 100;
    assert k[..4] == y && k[5..7] == mo;
    assert DecimalValue(mo) == t % 12 + 1;
    assert mo[..1][..0] == [] && mo[..1] == [mo[0]];
    assert DecimalValue(mo) == DigitValue(mo[0]) * 10 + DigitValue(mo[1]);
    assert IsMonthKey(k);
  }

  /** Every month key is the key of its index. */
  lemma KeyOfMonthIndex(m: string)
    requires IsMonthKey(m)
    ensures 0 <= MonthIndex(m) < 120000
    ensures KeyOfIndex(MonthIndex(m)) == m
  {
    var t := MonthIndex(m);
    assert t / 12 == KeyYear(m) && t % 12 + 1 == KeyMonth(m);
    PadDecimalOfValue(m[..4]);
    assert AllDigits(m[5..7]);
    PadDecimalOfValue(m[5..7]);
    assert m == m[..4] + "-" + m[5..7];
  }

  /** The month index Date.UTC is handed for a key: its year read through FullYear. */
  function UtcIndex(m: string): (i: int)
    requires IsMonthKey(m)
    ensures KeyYear(m) >= 100 ==> i == MonthIndex(m)
    ensures KeyYear(m) < 100 ==> i == MonthIndex(m) + 12 * 1900
  {
    12 * FullYear(KeyYear(m)) + KeyMonth(m) - 1
  }

  /** The key of a shifted month is the key of the shifted month index, while that lies in years 0..9999. */
  lemma ShiftMonthKeyIndex(m: string, offset: int)
    requires IsMonthKey(m)
    requires 0 <= UtcIndex(m) + offset < 120000
    ensures ShiftMonthKey(m, offset) == Success(KeyOfIndex(UtcIndex(m) + offset))
  {
    var t := UtcIndex(m) + offset;
    assert ShiftMonthKey(m, offset) == Success(IsoYearMonth(t)[..7]);
    var y := t / 12;
    assert 0 <= y <= 9999;
    assert IsoYear(y) == PadDecimal(y, 4);
    assert IsoYearMonth(t) == KeyOfIndex(t);
    assert |KeyOfIndex(t)| == 7;
    assert IsoYearMonth(t)[..7] == IsoYearMonth(t);
  }

  /** Shifting by zero months is the identity on century keys. */
  lemma ShiftByZero(m: string)
    requires IsCenturyKey(m)
    ensures ShiftMonthKey(m, 0) == Success(m)
  {
    KeyOfMonthIndex(m);
    ShiftMonthKeyIndex(m, 0);
  }

  /** Shifting by a and then by b is shifting by a + b, while every key involved is a century key. */
  lemma ShiftCompose(m: string, a: int, b: int)
    requires IsCenturyKey(m)
    requires 1200 <= MonthIndex(m) + a < 120000
    requires 0 <= MonthIndex(m) + a + b < 120000
    ensures ShiftMonthKey(m, a).Success?
    ensures ShiftMonthKey(ShiftMonthKey(m, a).value, b) == ShiftMonthKey(m, a + b)
  {
    var t := MonthIndex(m) + a;
    ShiftMonthKeyIndex(m, a);
    var k := KeyOfIndex(t);
    KeyOfIndexRoundTrip(t);
    assert KeyYear(k) == t / 12;
    ShiftMonthKeyIndex(k, b);
    ShiftMonthKeyIndex(m, a + b);
  }

  /** The month before January is December of the previous year. */
  lemma PreviousOfJanuary(m: string)
    requires IsCenturyKey(m) && KeyMonth(m) == 1
    ensures GetPreviousMonthKey(m).Success?
    ensures var p := GetPreviousMonthKey(m).value;
      IsMonthKey(p) && KeyYear(p) == KeyYear(m) - 1 && KeyMonth(p) == 12
  {
    ShiftMonthKeyIndex(m, -1);
    KeyOfIndexRoundTrip(MonthIndex(m) - 1);
    var p := KeyOfIndex(MonthIndex(m) - 1);
    assert KeyYear(p) == (12 * KeyYear(p) + KeyMonth(p) - 1) / 12;
  }

  /** Next undoes previous, and previous undoes next, away from the ends of the century range. */
  lemma NextOfPrevious(m: string)
    requires IsCenturyKey(m) && MonthIndex(m) > 1200
    ensures GetPreviousMonthKey(m).Success?
    ensures GetNextMonthKey(GetPreviousMonthKey(m).value) == Success(m)
  {
    KeyOfMonthIndex(m);
    ShiftCompose(m, -1, 1);
    ShiftByZero(m);
  }

  lemma PreviousOfNext(m: string)
    requires IsCenturyKey(m) && MonthIndex(m) + 1 < 120000
    ensures GetNextMonthKey(m).Success?
    ensures GetPreviousMonthKey(GetNextMonthKey(m).value) == Success(m)
  {
    KeyOfMonthIndex(m);
    ShiftCompose(m, 1, -1);
    ShiftByZero(m);
  }

  /**
   * Date.UTC reads a year 0000..0099 as 1900..1999, so shifting such a key, even by zero
   * months, lands in the twentieth century.
   */
  lemma TwoDigitYearIsRead19xx(m: string, offset: int)
    requires IsMonthKey(m) && KeyYear(m) < 100
    requires 0 <= MonthIndex(m) + 12 * 1900 + offset < 120000
    ensures ShiftMonthKey(m, offset).Success?
    ensures var k := ShiftMonthKey(m, offset).value;
      IsMonthKey(k) && MonthIndex(k) == MonthIndex(m) + 12 * 1900 + offset
    ensures ShiftMonthKey(m, 0) != Success(m)
  {
    ShiftMonthKeyIndex(m, offset);
    KeyOfIndexRoundTrip(MonthIndex(m) + 12 * 1900 + offset);
    ShiftMonthKeyIndex(m, 0);
    KeyOfIndexRoundTrip(MonthIndex(m) + 12 * 1900);
  }

  predicate IsLeapYear(y: int) {
    y % 4 == 0 && (y % 100 != 0 || y % 400 == 0)
  }

  function DaysInMonth(y: int, mo: int): (d: nat)
    requires 1 <= mo <= 12
    ensures 28 <= d <= 31
  {
    if mo == 2 then (if IsLeapYear(y) then 29 else 28)
    else if mo == 4 || mo == 6 || mo == 9 || mo == 11 then 30
    else 31
  }

  /** `startOfMonthIso`: `Date.UTC(year, month - 1, 1, 0, 0, 0, 0).toISOString()`. */
  function StartOfMonthIso(month: string): (r: Outcome<string>)
    ensures !IsMonthKey(month) ==> r == Failure(Thrown("Invalid month key: " + month))
    ensures IsCenturyKey(month) ==> r == Success(month + "-01T00:00:00.000Z")
  {
    if !IsMonthKey(month) then Failure(Thrown("Invalid month key: " + month))
    else
      var y := FullYear(KeyYear(month));
      var r := IsoYear(y) + "-" + PadDecimal(KeyMonth(month), 2) + "-01T00:00:00.000Z";
      assert IsCenturyKey(month) ==> r == month + "-01T00:00:00.000Z" by {
        if IsCenturyKey(month) {
          KeyOfMonthIndex(month);
          assert MonthIndex(month) / 12 == KeyYear(month);
          assert MonthIndex(month) % 12 + 1 == KeyMonth(month);
        }
      }
      Success(r)
  }

  /**
   * `endOfMonthIso`: `Date.UTC(year, month, 0, 23, 59, 59, 999).toISOString()`, day 0 of the
   * following month being the last day of this one.
   */
  function EndOfMonthIso(month: string): (r: Outcome<string>)
    ensures !IsMonthKey(month) ==> r == Failure(Thrown("Invalid month key: " + month))
    ensures IsCenturyKey(month) ==>
      r == Success(month + "-" + PadDecimal(DaysInMonth(KeyYear(month), KeyMonth(month)), 2) + "T23:59:59.999Z")
  {
    if !IsMonthKey(month) then Failure(Thrown("Invalid month key: " + month))
    else
      var y := FullYear(KeyYear(month));
      var prefix := IsoYear(y) + "-" + PadDecimal(KeyMonth(month), 2);
      assert IsCenturyKey(month) ==> prefix == month by {
        if IsCenturyKey(month) {
          KeyOfMonthIndex(month);
          assert MonthIndex(month) / 12 == KeyYear(month);
          assert MonthIndex(month) % 12 + 1 == KeyMonth(month);
        }
      }
      Success(prefix + "-" + PadDecimal(DaysInMonth(y, KeyMonth(month)), 2) + "T23:59:59.999Z")
  }

  /** `getMonthKey` on a canonical UTC timestamp: its "YYYY-MM" prefix. */
  function GetMonthKey(iso: string): string {
    if |iso| >= 7 then iso[..7] else iso
  }

  /** `isSameMonth(a, b)`. */
  predicate IsSameMonth(a: string, b: string) {
    GetMonthKey(a) == GetMonthKey(b)
  }

  /** The first and the last instant of a month both have that month's key, so they share a month. */
  lemma BoundsShareMonth(month: string)
    requires IsCenturyKey(month)
    ensures StartOfMonthIso(month).Success? && EndOfMonthIso(month).Success?
    ensures GetMonthKey(StartOfMonthIso(month).value) == month
    ensures GetMonthKey(EndOfMonthIso(month).value) == month
    ensures IsSameMonth(StartOfMonthIso(month).value, EndOfMonthIso(month).value)
  {
    var end := EndOfMonthIso(month).value;
    assert end[..7] == month;
  }

  /** `clampDateToMonth` on the canonical timestamp of the date. */
  function ClampDateToMonth(iso: string, month: string): (r: Outcome<string>)
    ensures !IsMonthKey(month) ==> r.Failure?
    ensures r.Success? ==>
      StrLe(StartOfMonthIso(month).value, r.value) && StrLe(r.value, EndOfMonthIso(month).value)
    ensures r.Success? && StrLe(StartOfMonthIso(month).value, iso) && StrLe(iso, EndOfMonthIso(month).value) ==>
      r.value == iso
    ensures r.Success? && StrLt(iso, StartOfMonthIso(month).value) ==> r.value == StartOfMonthIso(month).value
    ensures r.Success? && StrLt(EndOfMonthIso(month).value, iso) ==> r.value == EndOfMonthIso(month).value
  {
    if !IsMonthKey(month) then Failure(Thrown("Invalid month key: " + month))
    else
      var start := StartOfMonthIso(month).value;
      var end := EndOfMonthIso(month).value;
      StartBeforeEnd(month);
      StrLeTotal(iso, start);
      StrLeTotal(iso, end);
      StrLtNotLe(iso, start);
      StrLtNotLe(end, iso);
      StrLeTransitive(iso, start, end);
      StrLeReflexive(start);
      StrLeReflexive(end);
      if StrLt(iso, start) then Success(start)
      else if StrLt(end, iso) then Success(end)
      else Success(iso)
  }

  /** The first instant of a month sorts before its last instant. */
  lemma StartBeforeEnd(month: string)
    requires IsMonthKey(month)
    ensures StrLe(StartOfMonthIso(month).value, EndOfMonthIso(month).value)
    ensures StartOfMonthIso(month).value != EndOfMonthIso(month).value
  {
    var y := FullYear(KeyYear(month));
    var prefix := IsoYear(y) + "-" + PadDecimal(KeyMonth(month), 2) + "-";
    var s := StartOfMonthIso(month).value;
    var e := EndOfMonthIso(month).value;
    var dd := PadDecimal(DaysInMonth(y, KeyMonth(month)), 2);
    assert s == prefix + "01T00:00:00.000Z";
    assert e == prefix + dd + "T23:59:59.999Z";
    assert Pow10(2) == 100;
    assert DecimalValue(dd) >= 28;
    DecimalValueOfTwo(dd);
    assert dd[0] >= '2';
    assert e == prefix + (dd + "T23:59:59.999Z");
    CommonPrefixLe(prefix, "01T00:00:00.000Z", dd + "T23:59:59.999Z");
  }

  lemma {:induction false} CommonPrefixLe(p: string, a: string, b: string)
    requires a != [] && b != [] && a[0] < b[0]
    ensures StrLe(p + a, p + b) && p + a != p + b
  {
    if p != [] {
      assert (p + a)[1..] == p[1..] + a && (p + b)[1..] == p[1..] + b;
      CommonPrefixLe(p[1..], a, b);
    } else {
      assert (p + a)[0] != (p + b)[0];
    }
  }

  /** A clamped timestamp lies in the requested month. */
  lemma ClampedIsInMonth(iso: string, month: string)
    requires IsCenturyKey(month)
    ensures ClampDateToMonth(iso, month).Success?
    ensures GetMonthKey(ClampDateToMonth(iso, month).value) == month
    ensures IsSameMonth(ClampDateToMonth(iso, month).value, StartOfMonthIso(month).value)
  {
    var r := ClampDateToMonth(iso, month).value;
    var s := StartOfMonthIso(month).value;
    var e := EndOfMonthIso(month).value;
    assert month <= s && month <= e;
    BetweenSharesPrefix(month, s, r, e);
    assert r[..7] == month;
  }
}
