/** The relay's conversion of SQLite's `YYYY-MM-DD HH:MM:SS` to seconds since 1970:
    a closed form, against a day-by-day count of the Gregorian calendar. */
module Calendar {
  import opened Wire

  datatype DateTime = DateTime(year: int, month: int, day: int, hour: int, minute: int, second: int)

  const SECS_PER_DAY := 86400

  /** Division and remainder that round toward zero. */
  function Quotient(a: int, b: int): (q: int)
    requires b > 0
  {
    if a >= 0 then a / b else -((-a) / b)
  }

  function Rem(a: int, b: int): (r: int)
    requires b > 0
  {
    a - b * Quotient(a, b)
  }

  predicate IsLeap(year: int) { (Rem(year, 4) == 0 && Rem(year, 100) != 0) || Rem(year, 400) == 0 }

  const MONTH_DAYS: seq<int> := [0, 31, 59, 90, 120, 151, 181, 212, 243, 273, 304, 334]

  function Clamp(x: int, lo: int, hi: int): (r: int)
    requires lo <= hi
    ensures lo <= r <= hi
  {
    if x < lo then lo else if x > hi then hi else x
  }

  /** The closed form for the days before a year. */
  function YearDays(year: int): (n: int)
  {
    (year - 1970) * 365 + Quotient(year - 1969, 4) - Quotient(year - 1901, 100) + Quotient(year - 1601, 400)
  }

  /** The closed form. */
  function Timestamp(d: DateTime): (secs: int)
  {
    var leap := if IsLeap(d.year) && d.month > 2 then 1 else 0;
    (YearDays(d.year) + MONTH_DAYS[Clamp(d.month - 1, 0, 11)] + d.day - 1 + leap) * SECS_PER_DAY
    + d.hour * 3600 + d.minute * 60 + d.second
  }

  // -- The calendar itself -------------------------------------------------------

  predicate LeapYear(year: nat) { year % 400 == 0 || (year % 4 == 0 && year % 100 != 0) }

  function DaysInMonth(year: nat, month: int): (n: nat)
    requires 1 <= month <= 12
    ensures 28 <= n <= 31
  {
    if month == 2 then (if LeapYear(year) then 29 else 28)
    else if month == 4 || month == 6 || month == 9 || month == 11 then 30
    else 31
  }

  /** Days from the start of the year to the start of the month. */
  function DaysBeforeMonth(year: nat, month: int): (n: nat)
    requires 1 <= month <= 13
  {
    if month == 1 then 0 else DaysBeforeMonth(year, month - 1) + DaysInMonth(year, month - 1)
  }

  /** Days from the start of 1970 to the start of the year. */
  function DaysBeforeYear(year: nat): (n: nat)
    requires year >= 1970
  {
    if year == 1970 then 0 else DaysBeforeYear(year - 1) + DaysBeforeMonth(year - 1, 13)
  }

  predicate ValidDate(d: DateTime)
  {
    && d.year >= 1970 && 1 <= d.month <= 12 && 1 <= d.day <= DaysInMonth(d.year, d.month)
    && 0 <= d.hour < 24 && 0 <= d.minute < 60 && 0 <= d.second < 60
  }

  function DayNumber(d: DateTime): (n: nat)
    requires ValidDate(d)
  {
    DaysBeforeYear(d.year) + DaysBeforeMonth(d.year, d.month) + (d.day - 1)
  }

  function SecondOfDay(d: DateTime): (n: int) { d.hour * 3600 + d.minute * 60 + d.second }

  // -- The closed form counts days -----------------------------------------------

  function Tick(n: nat, d: nat): (t: nat)
    requires d > 0
  {
    if n % d == 0 then 1 else 0
  }

  lemma FourthYears(year: nat)
    requires year > 1970
    ensures Quotient(year - 1969, 4) == Quotient(year - 1970, 4) + Tick(year - 1, 4)
  {}

  lemma HundredthYears(year: nat)
    requires year > 1970
    ensures Quotient(year - 1901, 100) == Quotient(year - 1902, 100) + Tick(year - 1, 100)
  {}

  lemma FourHundredthYears(year: nat)
    requires year > 1970
    ensures Quotient(year - 1601, 400) == Quotient(year - 1602, 400) + Tick(year - 1, 400)
  {}

  lemma LeapTicks(year: nat)
    ensures Tick(year, 4) - Tick(year, 100) + Tick(year, 400) == if LeapYear(year) then 1 else 0
  {
    if year % 400 == 0 {
      assert year == 100 * (4 * (year / 400));
    }
    if year % 100 == 0 {
      assert year == 4 * (25 * (year / 100));
    }
  }

  lemma YearDaysStep(year: nat)
    requires year > 1970
    ensures YearDays(year) == YearDays(year - 1) + 365 + if LeapYear(year - 1) then 1 else 0
  {
    hide Quotient, Tick, LeapYear;
    FourthYears(year);
    HundredthYears(year);
    FourHundredthYears(year);
    LeapTicks(year - 1);
  }

  lemma MonthsUnfold(year: nat)
    ensures forall m :: 1 <= m <= 12 ==>
              DaysBeforeMonth(year, m) == MONTH_DAYS[m - 1] + if LeapYear(year) && m > 2 then 1 else 0
    ensures DaysBeforeMonth(year, 13) == 365 + if LeapYear(year) then 1 else 0
  {
    var leap := if LeapYear(year) then 1 else 0;
    assert DaysBeforeMonth(year, 2) == 31;
    assert DaysBeforeMonth(year, 3) == 59 + leap;
    assert DaysBeforeMonth(year, 4) == 90 + leap;
    assert DaysBeforeMonth(year, 5) == 120 + leap;
    assert DaysBeforeMonth(year, 6) == 151 + leap;
    assert DaysBeforeMonth(year, 7) == 181 + leap;
    assert DaysBeforeMonth(year, 8) == 212 + leap;
    assert DaysBeforeMonth(year, 9) == 243 + leap;
    assert DaysBeforeMonth(year, 10) == 273 + leap;
    assert DaysBeforeMonth(year, 11) == 304 + leap;
    assert DaysBeforeMonth(year, 12) == 334 + leap;
  }

  lemma {:induction false} YearDaysCount(year: nat)
    requires year >= 1970
    ensures YearDays(year) == DaysBeforeYear(year)
  {
    if year > 1970 {
      YearDaysCount(year - 1);
      YearDaysStep(year);
      MonthsUnfold(year - 1);
    }
  }

  /** For every valid date from 1970 on, the closed form is the calendar's count. */
  lemma TimestampCountsDays(d: DateTime)
    requires ValidDate(d)
    ensures Timestamp(d) == DayNumber(d) * SECS_PER_DAY + SecondOfDay(d)
  {
    YearDaysCount(d.year);
    MonthsUnfold(d.year);
    assert IsLeap(d.year) == LeapYear(d.year);
  }

  // -- Order ---------------------------------------------------------------------

  predicate DayBefore(a: DateTime, b: DateTime)
  {
    a.year < b.year || (a.year == b.year && (a.month < b.month || (a.month == b.month && a.day < b.day)))
  }

  /** Lexicographic order of the six components. */
  predicate Earlier(a: DateTime, b: DateTime)
  {
    DayBefore(a, b) ||
    (a.year == b.year && a.month == b.month && a.day == b.day &&
     (a.hour < b.hour || (a.hour == b.hour && (a.minute < b.minute || (a.minute == b.minute && a.second < b.second)))))
  }

  lemma {:induction false} MonthsGrow(year: nat, a: int, b: int)
    requires 1 <= a < b <= 13
    ensures DaysBeforeMonth(year, a) + DaysInMonth(year, a) <= DaysBeforeMonth(year, b)
    decreases b
  {
    if a + 1 < b { MonthsGrow(year, a, b - 1); }
  }

  lemma {:induction false} YearsGrow(a: nat, b: nat)
    requires 1970 <= a < b
    ensures DaysBeforeYear(a) + DaysBeforeMonth(a, 13) <= DaysBeforeYear(b)
    decreases b
  {
    if a + 1 < b { YearsGrow(a, b - 1); }
  }

  lemma DaysOrdered(a: DateTime, b: DateTime)
    requires ValidDate(a) && ValidDate(b) && DayBefore(a, b)
    ensures DayNumber(a) < DayNumber(b)
  {
    MonthsGrow(a.year, a.month, 13);
    if a.year < b.year {
      YearsGrow(a.year, b.year);
    } else if a.month < b.month {
      MonthsGrow(a.year, a.month, b.month);
    }
  }

  /** Timestamps order valid dates exactly as their components do. */
  lemma TimestampsOrdered(a: DateTime, b: DateTime)
    requires ValidDate(a) && ValidDate(b)
    ensures Earlier(a, b) <==> Timestamp(a) < Timestamp(b)
  {
    TimestampCountsDays(a);
    TimestampCountsDays(b);
    hide Timestamp, DayNumber;
    if DayBefore(a, b) {
      DaysOrdered(a, b);
    } else if DayBefore(b, a) {
      DaysOrdered(b, a);
    } else {
      assert a.year == b.year && a.month == b.month && a.day == b.day;
      SameDay(a, b);
    }
  }

  lemma SameDay(a: DateTime, b: DateTime)
    requires ValidDate(a) && ValidDate(b) && a.year == b.year && a.month == b.month && a.day == b.day
    ensures DayNumber(a) == DayNumber(b)
  {}

  // -- Reading the text ------------------------------------------------------------

  const I64_LIMIT := 0x8000_0000_0000_0000
  const U64_LIMIT := 0x1_0000_0000_0000_0000

  predicate IsSeparator(c: char) { c == '-' || c == ' ' || c == ':' }

  predicate Solid(t: string) { forall c :: c in t ==> !IsSeparator(c) }

  function Fields(s: string): (r: seq<string>)
    ensures r != []
  {
    if s == [] then [[]]
    else
      var front, c := Fields(s[..|s| - 1]), s[|s| - 1];
      if IsSeparator(c) then front + [[]]
      else front[..|front| - 1] + [front[|front| - 1] + [c]]
  }

  predicate IsDigit(c: char) { '0' <= c <= '9' }

  function Value(s: string): (n: nat)
    requires forall c :: c in s ==> IsDigit(c)
  {
    if s == [] then 0
    else
      var last := s[|s| - 1];
      assert last in s && IsDigit(last);
      10 * Value(s[..|s| - 1]) + (last as int - '0' as int)
  }

  /** A decimal number with an optional sign, within 64 bits. */
  function ParseInt(s: string): (r: Option<int>)
  {
    var negative := s != [] && s[0] == '-';
    var digits := if s != [] && (s[0] == '-' || s[0] == '+') then s[1..] else s;
    if digits == [] || exists c :: c in digits && !IsDigit(c) then None
    else
      var n: int := if negative then 0 - Value(digits) else Value(digits);
      if -I64_LIMIT <= n < I64_LIMIT then Some(n) else None
  }

  /** Zero when the text is not six numbers; a negative count wraps to 64 bits. */
  function ParseDatetime(s: string): (secs: int)
  {
    var parts := Fields(s);
    if |parts| != 6 then 0
    else
      var n := seq(6, i requires 0 <= i < 6 => ParseInt(parts[i]));
      if exists i :: 0 <= i < 6 && n[i].None? then 0
      else
        var t := Timestamp(DateTime(n[0].value, n[1].value, n[2].value, n[3].value, n[4].value, n[5].value));
        if t >= 0 then t else t + U64_LIMIT
  }

  /** `n` in `width` decimal digits. */
  function Decimal(n: nat, width: nat): (s: string)
    ensures |s| == width && (forall c :: c in s ==> IsDigit(c)) && Solid(s)
  {
    if width == 0 then [] else Decimal(n / 10, width - 1) + [('0' as int + n % 10) as char]
  }

  function Joined(s: string, sep: char, t: string): (r: string) { s + [sep] + t }

  function Format(d: DateTime): (s: string)
    requires ValidDate(d)
  {
    var date := Joined(Joined(Decimal(d.year, 4), '-', Decimal(d.month, 2)), '-', Decimal(d.day, 2));
    Joined(Joined(Joined(date, ' ', Decimal(d.hour, 2)), ':', Decimal(d.minute, 2)), ':', Decimal(d.second, 2))
  }

  function PowerOfTen(k: nat): (p: nat) { if k == 0 then 1 else 10 * PowerOfTen(k - 1) }

  lemma {:induction false} DecimalValue(n: nat, width: nat)
    requires n < PowerOfTen(width)
    ensures Value(Decimal(n, width)) == n
  {
    if width > 0 {
      DecimalValue(n / 10, width - 1);
      var front := Decimal(n / 10, width - 1);
      assert Decimal(n, width)[..width - 1] == front;
    }
  }

  lemma ParsesDigits(s: string)
    requires s != [] && (forall c :: c in s ==> IsDigit(c)) && Value(s) < I64_LIMIT
    ensures ParseInt(s) == Some(Value(s))
  {
    hide Value;
    assert s[0] in s && IsDigit(s[0]);
  }

  lemma PowersOfTen(width: nat)
    requires width <= 4
    ensures PowerOfTen(width) <= 10000
  {
    assert PowerOfTen(1) == 10 && PowerOfTen(2) == 100 && PowerOfTen(3) == 1000 && PowerOfTen(4) == 10000;
  }

  lemma ParsesDecimal(n: nat, width: nat)
    requires 1 <= width <= 4 && n < PowerOfTen(width)
    ensures ParseInt(Decimal(n, width)) == Some(n)
  {
    hide Decimal, Value, PowerOfTen, ParseInt;
    DecimalValue(n, width);
    PowersOfTen(width);
    ParsesDigits(Decimal(n, width));
  }

  lemma {:induction false} FieldsAfter(s: string, sep: char, t: string)
    requires IsSeparator(sep) && Solid(t)
    ensures Fields(Joined(s, sep, t)) == Fields(s) + [t]
  {
    var u := s + [sep] + t;
    if t == [] {
      assert u[..|u| - 1] == s;
    } else {
      var front := t[..|t| - 1];
      FieldsAfter(s, sep, front);
      assert u[..|u| - 1] == s + [sep] + front;
      var fs := Fields(s) + [front];
      assert fs[..|fs| - 1] == Fields(s);
      assert front + [t[|t| - 1]] == t;
    }
  }

  lemma {:induction false} OneField(t: string)
    requires Solid(t)
    ensures Fields(t) == [t]
  {
    if t != [] {
      OneField(t[..|t| - 1]);
      assert t[..|t| - 1] + [t[|t| - 1]] == t;
    }
  }

  lemma TwoFields(s: string, sep: char, t: string, sep2: char, u: string)
    requires IsSeparator(sep) && IsSeparator(sep2) && Solid(t) && Solid(u)
    ensures Fields(Joined(Joined(s, sep, t), sep2, u)) == Fields(s) + [t, u]
  {
    hide Fields, Joined, Solid, IsSeparator;
    FieldsAfter(s, sep, t);
    FieldsAfter(Joined(s, sep, t), sep2, u);
    assert Fields(s) + [t] + [u] == Fields(s) + [t, u];
  }

  lemma FormattedFields(d: DateTime)
    requires ValidDate(d)
    ensures Fields(Format(d)) == [Decimal(d.year, 4), Decimal(d.month, 2), Decimal(d.day, 2),
                                  Decimal(d.hour, 2), Decimal(d.minute, 2), Decimal(d.second, 2)]
  {
    var y, mo, da := Decimal(d.year, 4), Decimal(d.month, 2), Decimal(d.day, 2);
    var h, mi, se := Decimal(d.hour, 2), Decimal(d.minute, 2), Decimal(d.second, 2);
    hide Decimal, Fields, Joined, Solid, IsDigit, ValidDate;
    var date := Joined(Joined(y, '-', mo), '-', da);
    OneField(y);
    TwoFields(y, '-', mo, '-', da);
    TwoFields(date, ' ', h, ':', mi);
    FieldsAfter(Joined(Joined(date, ' ', h), ':', mi), ':', se);
    assert [y] + [mo, da] + [h, mi] + [se] == [y, mo, da, h, mi, se];
  }

  /** Reading back what SQLite writes for a valid date gives its second count. */
  lemma ParsesFormatted(d: DateTime)
    requires ValidDate(d) && d.year <= 9999
    ensures ParseDatetime(Format(d)) == DayNumber(d) * SECS_PER_DAY + SecondOfDay(d)
  {
    hide Timestamp, Format, Fields, ParseInt, Decimal, DayNumber;
    FormattedFields(d);
    TimestampCountsDays(d);
    assert PowerOfTen(2) == 100 && PowerOfTen(4) == 10000 by {
      assert PowerOfTen(1) == 10 && PowerOfTen(3) == 1000;
    }
    ParsesDecimal(d.year, 4);
    ParsesDecimal(d.month, 2);
    ParsesDecimal(d.day, 2);
    ParsesDecimal(d.hour, 2);
    ParsesDecimal(d.minute, 2);
    ParsesDecimal(d.second, 2);
  }
}
