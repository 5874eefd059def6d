/** The proleptic Gregorian calendar as Python's `datetime` counts it, for years 1 to 9999. */
module Calendar {
  datatype Fields = Fields(year: int, month: int, day: int, hour: int, minute: int, second: int, micro: int)

  predicate Leap(year: int) {
    year % 4 == 0 && (year % 100 != 0 || year % 400 == 0)
  }

  function DaysIn(year: int, month: int): int {
    if month == 2 then (if Leap(year) then 29 else 28)
    else if month == 4 || month == 6 || month == 9 || month == 11 then 30
    else 31
  }

  /** Days of a common year before the month. */
  function CommonBefore(month: int): int {
    if month <= 1 then 0
    else if month == 2 then 31
    else if month == 3 then 59
    else if month == 4 then 90
    else if month == 5 then 120
    else if month == 6 then 151
    else if month == 7 then 181
    else if month == 8 then 212
    else if month == 9 then 243
    else if month == 10 then 273
    else if month == 11 then 304
    else 334
  }

  function DaysBeforeMonth(year: int, month: int): int {
    CommonBefore(month) + if month > 2 && Leap(year) then 1 else 0
  }

  function DaysBeforeYear(year: int): int {
    (year - 1) * 365 + (year - 1) / 4 - (year - 1) / 100 + (year - 1) / 400
  }

  /** The first of January of year 1 is day 1. */
  function Ordinal(year: int, month: int, day: int): int {
    DaysBeforeYear(year) + DaysBeforeMonth(year, month) + day
  }

  predicate ValidDate(year: int, month: int, day: int) {
    1 <= year <= 9999 && 1 <= month <= 12 && 1 <= day <= DaysIn(year, month)
  }

  predicate Valid(f: Fields) {
    && ValidDate(f.year, f.month, f.day)
    && 0 <= f.hour <= 23 && 0 <= f.minute <= 59 && 0 <= f.second <= 59 && 0 <= f.micro <= 999999
  }

  const EPOCH_ORDINAL := 719163
  const MAX_ORDINAL := 3652059

  /** The calendar's next day. */
  function NextDay(year: int, month: int, day: int): (int, int, int) {
    if day < DaysIn(year, month) then (year, month, day + 1)
    else if month < 12 then (year, month + 1, 1)
    else (year + 1, 1, 1)
  }

  /** Day numbers count the days. */
  lemma DayByDay(year: int, month: int, day: int)
    requires ValidDate(year, month, day)
    ensures var next := NextDay(year, month, day); Ordinal(next.0, next.1, next.2) == Ordinal(year, month, day) + 1
  {
    hide Leap, DaysBeforeYear;
    if day == DaysIn(year, month) && month == 12 {
      YearGrows(year);
    }
  }

  /** They start on 1 January of year 1; the epoch is 1 January 1970. */
  lemma FirstDays(year: int, month: int, day: int)
    requires month == 1 && day == 1
    ensures year == 1 ==> Ordinal(year, month, day) == 1
    ensures year == 1970 ==> Ordinal(year, month, day) == EPOCH_ORDINAL
  {
  }

  /** Microseconds since 1970-01-01T00:00:00Z. */
  function Instant(f: Fields): int {
    (((Ordinal(f.year, f.month, f.day) - EPOCH_ORDINAL) * 24 + f.hour) * 60 + f.minute) * 60_000_000 + f.second * 1_000_000 + f.micro
  }

  // ----- The inverse: `_ord2ymd`

  /** A year and the day within it, counted from 0. */
  datatype YearDay = YearDay(year: int, day: int)

  function YearOf(n: int): YearDay {
    var n400 := n / 146097;
    var r400 := n % 146097;
    var n100 := r400 / 36524;
    var r100 := r400 % 36524;
    var n4 := r100 / 1461;
    var r4 := r100 % 1461;
    var n1 := r4 / 365;
    var year := n400 * 400 + n100 * 100 + n4 * 4 + n1 + 1;
    if n1 == 4 || n100 == 4 then YearDay(year - 1, 365) else YearDay(year, r4 % 365)
  }

  function MonthOf(year: int, day: int): int {
    var guess := (day + 50) / 32;
    if DaysBeforeMonth(year, guess) > day then guess - 1 else guess
  }

  function DateOf(ordinal: int): (int, int, int) {
    var yd := YearOf(ordinal - 1);
    var month := MonthOf(yd.year, yd.day);
    (yd.year, month, yd.day - DaysBeforeMonth(yd.year, month) + 1)
  }

  function YearLength(year: int): int {
    if Leap(year) then 366 else 365
  }

  /** `YearOf` finds the year a day falls in. */
  lemma YearOfRight(n: int)
    requires 0 <= n < MAX_ORDINAL
    ensures var yd := YearOf(n);
            && 1 <= yd.year <= 9999
            && 0 <= yd.day < YearLength(yd.year)
            && DaysBeforeYear(yd.year) + yd.day == n
  {
    var n400, r400 := n / 146097, n % 146097;
    var n100, r100 := r400 / 36524, r400 % 36524;
    var n4, r4 := r100 / 1461, r100 % 1461;
    var n1 := r4 / 365;
    assert 0 <= n400 <= 24 && 0 <= n100 <= 4 && 0 <= n4 <= 24 && 0 <= n1 <= 4;
    if n100 == 4 {
      assert r400 == 146096;
      CycleYear(n400, 3, 24, 3);
    } else if n1 == 4 {
      assert r4 == 1460 && n4 < 24;
      CycleYear(n400, n100, n4, 3);
    } else {
      CycleYear(n400, n100, n4, n1);
      assert r4 == n1 * 365 + r4 % 365;
    }
  }

  /** Days before, and length of, a year given by its place in the cycles. */
  lemma CycleYear(n400: int, n100: int, n4: int, n1: int)
    requires 0 <= n400 <= 24 && 0 <= n100 <= 3 && 0 <= n4 <= 24 && 0 <= n1 <= 3
    ensures var year := n400 * 400 + n100 * 100 + n4 * 4 + n1 + 1;
            && DaysBeforeYear(year) == n400 * 146097 + n100 * 36524 + n4 * 1461 + n1 * 365
            && (Leap(year) <==> n1 == 3 && (n4 < 24 || n100 == 3))
  {
    var y := n400 * 400 + n100 * 100 + n4 * 4 + n1;
    assert y / 4 == n400 * 100 + n100 * 25 + n4;
    assert y / 100 == n400 * 4 + n100;
    assert y / 400 == n400;
  }

  /** `MonthOf` finds the month a day falls in. */
  lemma MonthOfRight(year: int, day: int)
    requires 0 <= day < YearLength(year)
    ensures var month := MonthOf(year, day);
            && 1 <= month <= 12
            && DaysBeforeMonth(year, month) <= day < DaysBeforeMonth(year, month) + DaysIn(year, month)
  {
  }

  /** Every day of years 1 to 9999 comes from exactly the date `DateOf` gives. */
  lemma DateOfRight(ordinal: int)
    requires 1 <= ordinal <= MAX_ORDINAL
    ensures var (y, m, d) := DateOf(ordinal);
            ValidDate(y, m, d) && Ordinal(y, m, d) == ordinal
  {
    hide YearOf, MonthOf;
    YearOfRight(ordinal - 1);
    MonthOfRight(YearOf(ordinal - 1).year, YearOf(ordinal - 1).day);
  }

  /** The days of a year stand between its start and the next. */
  lemma YearHolds(year: int, month: int, day: int)
    requires ValidDate(year, month, day)
    ensures DaysBeforeYear(year) < Ordinal(year, month, day) <= DaysBeforeYear(year + 1)
  {
    YearGrows(year);
  }

  lemma YearGrows(year: int)
    requires year >= 1
    ensures DaysBeforeYear(year + 1) == DaysBeforeYear(year) + YearLength(year)
  {
    assert year / 4 == (year - 1) / 4 + if year % 4 == 0 then 1 else 0;
    assert year / 100 == (year - 1) / 100 + if year % 100 == 0 then 1 else 0;
    assert year / 400 == (year - 1) / 400 + if year % 400 == 0 then 1 else 0;
    Multiples(year);
  }

  lemma Multiples(year: int)
    ensures (year % 100 == 0 ==> year % 4 == 0) && (year % 400 == 0 ==> year % 100 == 0)
  {
  }

  lemma MonthHolds(year: int, month: int, day: int, other: int, otherDay: int)
    requires ValidDate(year, month, day) && ValidDate(year, other, otherDay)
    requires DaysBeforeMonth(year, month) + day == DaysBeforeMonth(year, other) + otherDay
    ensures month == other && day == otherDay
  {
  }

  /** No two valid dates are the same day. */
  lemma OrdinalInjective(y: int, m: int, d: int, y': int, m': int, d': int)
    requires ValidDate(y, m, d) && ValidDate(y', m', d') && Ordinal(y, m, d) == Ordinal(y', m', d')
    ensures y == y' && m == m' && d == d'
  {
    hide Leap, DaysIn, DaysBeforeMonth;
    YearHolds(y, m, d);
    YearHolds(y', m', d');
    if y < y' {
      YearsGrow(y + 1, y');
    } else if y' < y {
      YearsGrow(y' + 1, y);
    }
    MonthHolds(y, m, d, m', d');
  }

  /** So dates and days correspond one to one. */
  lemma DateOfOrdinal(y: int, m: int, d: int)
    requires ValidDate(y, m, d)
    ensures DateOf(Ordinal(y, m, d)) == (y, m, d)
  {
    hide DateOf, Ordinal, ValidDate;
    OrdinalRange(y, m, d);
    DateOfRight(Ordinal(y, m, d));
    var (y', m', d') := DateOf(Ordinal(y, m, d));
    OrdinalInjective(y, m, d, y', m', d');
  }

  const DAY_MICROS := 86_400_000_000

  /** The instants a UTC `datetime` can hold. */
  predicate InRange(t: int) {
    (1 - EPOCH_ORDINAL) * DAY_MICROS <= t < (MAX_ORDINAL + 1 - EPOCH_ORDINAL) * DAY_MICROS
  }

  /** The UTC fields of an instant. */
  function FieldsOf(t: int): Fields {
    var (y, m, d) := DateOf(t / DAY_MICROS + EPOCH_ORDINAL);
    var micros := t % DAY_MICROS;
    Fields(y, m, d, micros / 3_600_000_000, micros / 60_000_000 % 60, micros / 1_000_000 % 60, micros % 1_000_000)
  }

  lemma FieldsOfRight(t: int)
    requires InRange(t)
    ensures Valid(FieldsOf(t)) && Instant(FieldsOf(t)) == t
  {
    hide DateOf, Ordinal;
    DateOfRight(t / DAY_MICROS + EPOCH_ORDINAL);
    ClockParts(t % DAY_MICROS);
  }

  lemma ClockParts(micros: int)
    requires 0 <= micros < DAY_MICROS
    ensures micros == ((micros / 3_600_000_000) * 60 + micros / 60_000_000 % 60) * 60_000_000
                      + (micros / 1_000_000 % 60) * 1_000_000 + micros % 1_000_000
    ensures 0 <= micros / 3_600_000_000 <= 23
  {
    var seconds := micros / 1_000_000;
    assert micros / 60_000_000 == seconds / 60;
    assert micros / 3_600_000_000 == seconds / 60 / 60;
  }

  /** Valid dates are days of the calendar. */
  lemma OrdinalRange(year: int, month: int, day: int)
    requires ValidDate(year, month, day)
    ensures 1 <= Ordinal(year, month, day) <= MAX_ORDINAL
  {
    YearsGrow(1, year);
    YearsGrow(year, 9999);
  }

  lemma YearsGrow(a: int, b: int)
    requires 1 <= a <= b
    ensures DaysBeforeYear(a) <= DaysBeforeYear(b)
  {
  }
}
