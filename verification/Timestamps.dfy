/** Source timestamps (`adapters/splunk/mapping.py:85-131`) and their canonical form
    (`adapters/splunk/idempotency.py:16-26`). */
module Timestamps {
  import opened Domain
  import opened Digits
  import opened Calendar

  // ----- The canonical form

  /** A second of the calendar: `2024-05-01T12:00:00`. */
  function SecondText(f: Fields): (s: string)
    requires Valid(f)
    ensures |s| == 19
  {
    Fixed(f.year, 4) + "-" + Fixed(f.month, 2) + "-" + Fixed(f.day, 2) + "T"
    + Fixed(f.hour, 2) + ":" + Fixed(f.minute, 2) + ":" + Fixed(f.second, 2)
  }

  function Iso(f: Fields): string
    requires Valid(f)
  {
    SecondText(f) + "." + Fixed(f.micro, 6) + "Z"
  }

  /** `isoformat(timespec="microseconds")` in UTC with `Z`. */
  function Print(t: int): string
    requires InRange(t)
  {
    FieldsOfRight(t);
    Iso(FieldsOf(t))
  }

  // ----- RFC 3339

  function DigitRun(s: string): (n: nat)
    ensures n <= |s| && AllDigits(s[..n]) && (n < |s| ==> !IsDigit(s[n]))
  {
    if s == "" || !IsDigit(s[0]) then 0
    else
      var n := DigitRun(s[1..]);
      assert s[..n + 1] == [s[0]] + s[1..][..n];
      n + 1
  }

  /** The first six digits of a fraction, padded on the right. */
  function Truncated(fraction: string): nat
    requires AllDigits(fraction)
  {
    if |fraction| >= 6 then Value(fraction[..6]) else Value(fraction) * Pow10(6 - |fraction|)
  }

  predicate DateShape(s: string) {
    |s| >= 20 && AllDigits(s[..4]) && s[4] == '-' && AllDigits(s[5..7]) && s[7] == '-' && AllDigits(s[8..10]) && s[10] == 'T'
  }

  predicate ClockShape(s: string)
    requires |s| >= 20
  {
    AllDigits(s[11..13]) && s[13] == ':' && AllDigits(s[14..16]) && s[16] == ':' && AllDigits(s[17..19])
  }

  predicate ZoneShape(s: string) {
    s == "Z" || (|s| == 6 && (s[0] == '+' || s[0] == '-') && AllDigits(s[1..3]) && s[3] == ':' && AllDigits(s[4..6]))
  }

  /** Offset from UTC in minutes. */
  function ZoneMinutes(s: string): int
    requires ZoneShape(s)
  {
    if s == "Z" then 0
    else
      var m := Value(s[1..3]) * 60 + Value(s[4..6]);
      if s[0] == '-' then -m else m
  }

  /** The fraction's digits, none when there is no fraction, and what follows. */
  function SplitFraction(s: string): Option<(string, string)> {
    if s == "" || s[0] != '.' then Some(("", s))
    else
      var n := DigitRun(s[1..]);
      if n == 0 then None else Some((s[1..][..n], s[1..][n..]))
  }

  lemma SplitDigits(s: string)
    ensures SplitFraction(s).Some? ==> AllDigits(SplitFraction(s).value.0)
  {
  }

  function SecondsFields(s: string, micro: int): Fields
    requires DateShape(s) && ClockShape(s)
  {
    Fields(Value(s[..4]), Value(s[5..7]), Value(s[8..10]), Value(s[11..13]), Value(s[14..16]), Value(s[17..19]), micro)
  }

  /** `fromisoformat` on a string of the accepted shape, then conversion to UTC. */
  function NormalizeRfc3339(s: string): Option<int> {
    if !DateShape(s) || !ClockShape(s) then None
    else
      var split := SplitFraction(s[19..]);
      SplitDigits(s[19..]);
      if split.None? || !ZoneShape(split.value.1) then None
      else
        var zone := ZoneMinutes(split.value.1);
        var f := SecondsFields(s, Truncated(split.value.0));
        if !Valid(f) || zone <= -1440 || zone >= 1440 then None
        else
          var t := Instant(f) - zone * 60_000_000;
          if InRange(t) then Some(t) else None
  }

  // ----- What a text means

  /** An offset as RFC 3339 writes it. */
  datatype Offset = Zulu | Ahead(hours: nat, minutes: nat) | Behind(hours: nat, minutes: nat) {
    predicate TwoDigits() {
      Zulu? || (hours <= 99 && minutes <= 99)
    }

    predicate UnderADay() {
      Zulu? || 60 * hours + minutes < 1440
    }

    function Text(): (s: string)
      ensures s != "" && !IsDigit(s[0]) && s[0] != '.'
    {
      match this
      case Zulu => "Z"
      case Ahead(h, m) => "+" + Fixed(h, 2) + ":" + Fixed(m, 2)
      case Behind(h, m) => "-" + Fixed(h, 2) + ":" + Fixed(m, 2)
    }

    /** How far local time is ahead of UTC, in microseconds. */
    function Micros(): int {
      match this
      case Zulu => 0
      case Ahead(h, m) => (60 * h + m) * 60_000_000
      case Behind(h, m) => -(60 * h + m) * 60_000_000
    }
  }

  function Rfc3339Text(f: Fields, fraction: string, offset: Offset): string
    requires Valid(f)
  {
    SecondText(f) + Written(fraction) + offset.Text()
  }

  /** The parts of such a text sit where the parser looks. */
  lemma SecondParts(f: Fields, rest: string, micro: int)
    requires Valid(f) && rest != ""
    ensures var s := SecondText(f) + rest;
            DateShape(s) && ClockShape(s) && s[19..] == rest && SecondsFields(s, micro) == f.(micro := micro)
  {
    SecondPlaces(f, rest);
    FieldValues(f);
    hide Fixed, Value, DaysIn, SecondText;
    var s := SecondText(f) + rest;
    assert forall i :: 0 <= i < 4 ==> s[i] == s[..4][i];
  }

  lemma SecondPlaces(f: Fields, rest: string)
    requires Valid(f)
    ensures var s := SecondText(f) + rest;
            && |s| >= 19 && s[..4] == Fixed(f.year, 4) && s[4] == '-' && s[5..7] == Fixed(f.month, 2) && s[7] == '-'
            && s[8..10] == Fixed(f.day, 2) && s[10] == 'T' && s[11..13] == Fixed(f.hour, 2) && s[13] == ':'
            && s[14..16] == Fixed(f.minute, 2) && s[16] == ':' && s[17..19] == Fixed(f.second, 2) && s[19..] == rest
  {
    hide Fixed, DaysIn;
    var date := Fixed(f.year, 4) + "-" + Fixed(f.month, 2) + "-" + Fixed(f.day, 2) + "T";
    var clock := Fixed(f.hour, 2) + ":" + Fixed(f.minute, 2) + ":" + Fixed(f.second, 2);
    assert SecondText(f) == date + clock;
    assert date[..4] == Fixed(f.year, 4) && date[5..7] == Fixed(f.month, 2) && date[8..10] == Fixed(f.day, 2);
    assert clock[..2] == Fixed(f.hour, 2) && clock[3..5] == Fixed(f.minute, 2) && clock[6..8] == Fixed(f.second, 2);
    ThreeParts(date, clock, rest);
  }

  lemma ThreeParts(date: string, clock: string, rest: string)
    requires |date| == 11 && |clock| == 8
    ensures var s := date + clock + rest;
            && s[..4] == date[..4] && s[4] == date[4] && s[5..7] == date[5..7] && s[7] == date[7] && s[8..10] == date[8..10] && s[10] == date[10]
            && s[11..13] == clock[..2] && s[13] == clock[2] && s[14..16] == clock[3..5] && s[16] == clock[5] && s[17..19] == clock[6..8]
            && s[19..] == rest
  {
  }

  lemma OffsetParts(offset: Offset)
    requires offset.TwoDigits()
    ensures ZoneShape(offset.Text()) && ZoneMinutes(offset.Text()) * 60_000_000 == offset.Micros()
    ensures -1440 < ZoneMinutes(offset.Text()) < 1440 <==> offset.UnderADay()
  {
    hide Fixed, Value, Pow10;
    if !offset.Zulu? {
      OffsetPlaces(if offset.Ahead? then "+" else "-", Fixed(offset.hours, 2), Fixed(offset.minutes, 2));
      OffsetValue(offset.hours);
      OffsetValue(offset.minutes);
    }
  }

  lemma OffsetValue(n: nat)
    requires n <= 99
    ensures Value(Fixed(n, 2)) == n
  {
    PowersOfTen();
    hide Fixed, Value;
    FixedValue(n, 2);
  }

  lemma OffsetPlaces(sign: string, hours: string, minutes: string)
    requires sign in {"+", "-"} && |hours| == 2 && AllDigits(hours) && |minutes| == 2 && AllDigits(minutes)
    ensures var s := sign + hours + ":" + minutes;
            |s| == 6 && s[0] == sign[0] && s[1..3] == hours && s[3] == ':' && s[4..6] == minutes && ZoneShape(s)
  {
    var s := sign + hours + ":" + minutes;
    assert s[1..3] == hours && s[4..6] == minutes;
  }

  /** Digits are the number they denote, in their own width. */
  lemma {:induction false} FixedOfValue(s: string)
    requires AllDigits(s)
    ensures Fixed(Value(s), |s|) == s
  {
    if s != "" {
      var n := |s| - 1;
      FixedOfValue(s[..n]);
      DigitSplit(Value(s[..n]), ValueOf(s[n]));
      assert s == s[..n] + [s[n]];
    }
  }

  lemma DigitSplit(a: nat, d: nat)
    requires d < 10
    ensures (10 * a + d) / 10 == a && (10 * a + d) % 10 == d
  {
  }

  lemma {:induction false} RunOfDigits(digits: string, rest: string)
    requires AllDigits(digits) && (rest != "" ==> !IsDigit(rest[0]))
    ensures DigitRun(digits + rest) == |digits|
  {
    if digits == "" {
      assert digits + rest == rest;
    } else {
      assert (digits + rest)[1..] == digits[1..] + rest;
      RunOfDigits(digits[1..], rest);
    }
  }

  /** The fraction as it is written: nothing, or a point and its digits. */
  function Written(fraction: string): string {
    if fraction == "" then "" else "." + fraction
  }

  lemma FractionParts(digits: string, zone: string)
    requires AllDigits(digits) && ZoneShape(zone)
    ensures SplitFraction(Written(digits) + zone) == Some((digits, zone))
  {
    if digits == "" {
      assert Written(digits) + zone == zone;
    } else {
      var s := "." + digits + zone;
      assert s[1..] == digits + zone;
      RunOfDigits(digits, zone);
    }
  }

  lemma FieldValues(f: Fields)
    requires Valid(f)
    ensures Value(Fixed(f.year, 4)) == f.year && Value(Fixed(f.month, 2)) == f.month && Value(Fixed(f.day, 2)) == f.day
    ensures Value(Fixed(f.hour, 2)) == f.hour && Value(Fixed(f.minute, 2)) == f.minute && Value(Fixed(f.second, 2)) == f.second
    ensures Value(Fixed(f.micro, 6)) == f.micro
  {
    hide Fixed, Value, Leap;
    PowersOfTen();
    FixedValue(f.year, 4);
    FixedValue(f.month, 2);
    FixedValue(f.day, 2);
    FixedValue(f.hour, 2);
    FixedValue(f.minute, 2);
    FixedValue(f.second, 2);
    FixedValue(f.micro, 6);
  }

  lemma PowersOfTen()
    ensures Pow10(0) == 1 && Pow10(1) == 10 && Pow10(2) == 100 && Pow10(3) == 1000 && Pow10(4) == 10_000
    ensures Pow10(5) == 100_000 && Pow10(6) == 1_000_000
  {
    assert Pow10(1) == 10 * Pow10(0);
    assert Pow10(2) == 10 * Pow10(1);
    assert Pow10(3) == 10 * Pow10(2);
    assert Pow10(4) == 10 * Pow10(3);
    assert Pow10(5) == 10 * Pow10(4);
    assert Pow10(6) == 10 * Pow10(5);
  }

  // ----- Numeric epochs

  /** Nearest multiple of `unit`, ties to the even multiple. */
  function RoundHalfEven(x: int, unit: nat): int
    requires unit > 0
  {
    var q := x / unit;
    var r := x % unit;
    if 2 * r < unit || (2 * r == unit && q % 2 == 0) then q * unit else (q + 1) * unit
  }

  function Abs(x: int): nat {
    if x < 0 then -x else x
  }

  const PRECISION := 28

  /** The product of the coefficient with 1000000 as the default decimal context keeps it:
      exact up to 28 digits, rounded to 28 beyond that. */
  function Product(coefficient: int): int {
    var exact := coefficient * 1_000_000;
    var digits := Count(Abs(exact));
    if digits <= PRECISION then exact else RoundHalfEven(exact, Pow10(digits - PRECISION))
  }

  const MIN_EPOCH := -62_135_596_800
  const MAX_EPOCH := 253_402_300_800

  predicate EpochInRange(coefficient: int, scale: nat) {
    MIN_EPOCH * Pow10(scale) <= coefficient < MAX_EPOCH * Pow10(scale)
  }

  /** `_normalize_epoch` of the decimal `coefficient / 10^scale`. */
  function NormalizeEpoch(coefficient: int, scale: nat): Option<int> {
    if !EpochInRange(coefficient, scale) then None
    else
      var micros := Product(coefficient) / Pow10(scale);
      if InRange(micros) then Some(micros) else None
  }

  /** What it should be: the microsecond the epoch falls in. */
  function Floored(coefficient: int, scale: nat): int {
    coefficient * 1_000_000 / Pow10(scale)
  }

  /** A coefficient of at most 28 digits survives the product unrounded. */
  lemma ShortProduct(coefficient: int)
    requires Count(Abs(coefficient)) <= PRECISION
    ensures Product(coefficient) == coefficient * 1_000_000
  {
    var digits := Count(Abs(coefficient * 1_000_000));
    if digits > PRECISION {
      ProductDigits(coefficient);
      var n := digits - PRECISION;
      Pow10Add(6 - n, n);
      PowersOfTen();
      DividesExactly(coefficient, Pow10(6 - n), Pow10(n));
    }
  }

  lemma ProductDigits(coefficient: int)
    requires coefficient != 0
    ensures Count(Abs(coefficient * 1_000_000)) == Count(Abs(coefficient)) + 6
  {
    var n := Abs(coefficient);
    var c := Count(n);
    CountBounds(n);
    PowersOfTen();
    Pow10Add(c, 6);
    Pow10Add(c - 1, 6);
    assert Abs(coefficient * 1_000_000) == n * 1_000_000;
    CountIs(n * 1_000_000, c + 6);
  }

  lemma DividesExactly(c: int, a: nat, unit: nat)
    requires unit > 0 && a * unit == 1_000_000
    ensures RoundHalfEven(c * 1_000_000, unit) == c * 1_000_000
  {
    assert c * 1_000_000 == (c * a) * unit by { Regroup(c, a, unit); }
    ExactQuotient(c * a, unit);
  }

  lemma Regroup(c: int, a: int, b: int)
    ensures c * (a * b) == (c * a) * b
  {
  }

  lemma ExactQuotient(q: int, unit: nat)
    requires unit > 0
    ensures (q * unit) / unit == q && (q * unit) % unit == 0
  {
    QuotientIs(q * unit, unit, q, 0);
  }

  /** Division with remainder is unique. */
  lemma QuotientIs(x: int, d: nat, q: int, r: int)
    requires d > 0 && x == q * d + r && 0 <= r < d
    ensures x / d == q && x % d == r
  {
    var k := x / d - q;
    assert x == (x / d) * d + x % d;
    assert k * d == r - x % d by { Distribute(x / d, q, d); }
    if k >= 1 {
      AtLeast(k, d);
      assert false;
    } else if k <= -1 {
      AtLeast(-k, d);
      Negate(k, d);
      assert false;
    }
  }

  lemma Distribute(a: int, b: int, d: int)
    ensures (a - b) * d == a * d - b * d
  {
  }

  lemma Negate(k: int, d: int)
    ensures (-k) * d == -(k * d)
  {
  }

  lemma AtLeast(k: int, d: nat)
    requires k >= 1
    ensures k * d >= d
  {
  }

  /** An epoch of at most 28 significant digits normalizes to the microsecond it falls in,
      before and after 1970. */
  lemma EpochFloors(coefficient: int, scale: nat)
    requires EpochInRange(coefficient, scale) && Count(Abs(coefficient)) <= PRECISION
    ensures NormalizeEpoch(coefficient, scale) == Some(Floored(coefficient, scale))
  {
    hide Product, Count, InRange;
    ShortProduct(coefficient);
    FlooredRange(coefficient, scale);
  }

  lemma FlooredRange(coefficient: int, scale: nat)
    requires EpochInRange(coefficient, scale)
    ensures InRange(Floored(coefficient, scale))
  {
    var p := Pow10(scale);
    var x := coefficient * 1_000_000;
    var q := x / p;
    assert x == q * p + x % p;
    Scale(MIN_EPOCH, p);
    Scale(MAX_EPOCH, p);
    assert MIN_EPOCH * 1_000_000 * p <= x < MAX_EPOCH * 1_000_000 * p;
    Between(MIN_EPOCH * 1_000_000, q, MAX_EPOCH * 1_000_000, p, x);
  }

  lemma Scale(a: int, p: int)
    ensures a * p * 1_000_000 == a * 1_000_000 * p
  {
  }

  lemma Between(lo: int, q: int, hi: int, p: nat, x: int)
    requires p > 0 && lo * p <= x < hi * p && q == x / p
    ensures lo <= q < hi
  {
    assert x == q * p + x % p;
    if q < lo {
      AtLeast(lo - q, p);
      Distribute(lo, q, p);
      assert false;
    } else if q >= hi {
      if q > hi {
        AtLeast(q - hi, p);
      }
      Distribute(q, hi, p);
      assert false;
    }
  }

  // ----- Beyond 28 digits

  /** A number taken apart by `unit` and by `unit * e` at once. */
  lemma TakeApart(m: int, unit: nat, e: nat) returns (k: int, s: int, r: int)
    requires unit > 0 && e > 0
    ensures 0 <= s < e && 0 <= r < unit && unit * e > 0
    ensures m / unit == k * e + s && m % unit == r
    ensures m / (unit * e) == k && m % (unit * e) == s * unit + r
  {
    var q := m / unit;
    r := m % unit;
    k, s := q / e, q % e;
    AtLeast(e, unit);
    Expand(k, e, s, unit);
    Room(s, e, unit, r);
    QuotientIs(m, unit * e, k, s * unit + r);
  }

  /** The quotient of a multiple of `unit` by `unit * e`. */
  lemma Multiple(k: int, s: int, unit: nat, e: nat)
    requires unit > 0 && e > 0 && 0 <= s <= e
    ensures unit * e > 0
    ensures ((k * e + s) * unit) / (unit * e) == if s < e then k else k + 1
  {
    AtLeast(e, unit);
    Expand(k, e, s, unit);
    if s < e {
      Room(s, e, unit, 0);
      QuotientIs((k * e + s) * unit, unit * e, k, s * unit);
    } else {
      Distribute(k + 1, k, unit * e);
      QuotientIs((k * e + s) * unit, unit * e, k + 1, 0);
    }
  }

  /** Rounding a coefficient to multiples of `unit` moves it over a multiple of `unit * e`
      exactly when it lies within half a unit below one. */
  lemma RoundCrosses(m: int, unit: nat, e: nat)
    requires unit > 0 && unit % 2 == 0 && e > 0 && e % 2 == 0
    ensures unit * e > 0
    ensures RoundHalfEven(m, unit) / (unit * e) == m / (unit * e) + if m % (unit * e) < unit * e - unit / 2 then 0 else 1
  {
    var k, s, r := TakeApart(m, unit, e);
    var q := k * e + s;
    RoundedIs(m, unit, q, r);
    hide RoundHalfEven;
    Multiple(k, s, unit, e);
    Multiple(k, s + 1, unit, e);
    assert k * e + (s + 1) == q + 1;
    HalfShort(s, e, unit, r);
    if s + 1 == e {
      LastIsOdd(k, e, q);
    }
  }

  lemma RoundedIs(m: int, unit: nat, q: int, r: int)
    requires unit > 0 && m / unit == q && m % unit == r
    ensures RoundHalfEven(m, unit) == if 2 * r < unit || (2 * r == unit && q % 2 == 0) then q * unit else (q + 1) * unit
  {
  }

  /** What stands below a multiple of `unit * e` is short of it by more than half a unit unless
      it is in the upper half of the last unit. */
  lemma HalfShort(s: int, e: nat, unit: nat, r: int)
    requires 0 <= s < e && 0 <= r < unit && unit % 2 == 0
    ensures s * unit + r < unit * e - unit / 2 <==> s + 1 < e || 2 * r < unit
  {
    var below := (e - s) * unit;
    Distribute(e, s, unit);
    if s + 1 < e {
      AtLeast(e - s - 1, unit);
      Distribute(e - s, 1, unit);
    }
    HalfOf(s * unit, r, unit, unit * e, below, s + 1 < e);
  }

  lemma HalfOf(a: int, r: int, unit: nat, n: int, below: int, more: bool)
    requires n == a + below && 0 <= r < unit && unit % 2 == 0
    requires if more then below >= 2 * unit else below == unit
    ensures a + r < n - unit / 2 <==> more || 2 * r < unit
  {
  }

  lemma Expand(k: int, e: int, s: int, unit: int)
    ensures (k * e + s) * unit == k * (unit * e) + s * unit
  {
    assert (k * e) * unit == k * (unit * e);
  }

  lemma Room(s: int, e: nat, unit: nat, r: int)
    requires 0 <= s < e && 0 <= r < unit
    ensures 0 <= s * unit && s * unit + r < unit * e
  {
    AtLeast(e - s, unit);
    Distribute(e, s, unit);
  }

  lemma LastIsOdd(k: int, e: nat, q: int)
    requires e % 2 == 0 && e > 0 && q == k * e + e - 1
    ensures q % 2 == 1
  {
    var h := e / 2;
    assert q == 2 * (k * h + h - 1) + 1;
  }

  /** Rounding the product with 1000000 is rounding the coefficient. */
  lemma RoundScaled(m: int, unit: nat)
    requires unit > 0
    ensures 1_000_000 * unit > 0
    ensures RoundHalfEven(m * 1_000_000, 1_000_000 * unit) == RoundHalfEven(m, unit) * 1_000_000
  {
    var q, r := m / unit, m % unit;
    assert m == q * unit + r;
    assert m * 1_000_000 == q * (1_000_000 * unit) + r * 1_000_000;
    QuotientIs(m * 1_000_000, 1_000_000 * unit, q, r * 1_000_000);
    assert (q + 1) * (1_000_000 * unit) == ((q + 1) * unit) * 1_000_000;
    assert q * (1_000_000 * unit) == (q * unit) * 1_000_000;
  }

  /** A coefficient in range with more than 28 digits has most of them after the point. */
  lemma LongScale(coefficient: int, scale: nat)
    requires EpochInRange(coefficient, scale) && Count(Abs(coefficient)) > PRECISION
    ensures scale >= Count(Abs(coefficient)) - 12
  {
    var d := Count(Abs(coefficient));
    CountBounds(Abs(coefficient));
    Pow10Add(12, scale);
    TwelveDigits();
    Weaken(MIN_EPOCH, coefficient, MAX_EPOCH, Pow10(12), Pow10(scale));
    if scale < d - 12 {
      Pow10Monotone(12 + scale, d - 1);
    }
  }

  lemma TwelveDigits()
    ensures Pow10(12) == 1_000_000_000_000
  {
    PowersOfTen();
    Pow10Add(6, 6);
  }

  lemma Weaken(lo: int, x: int, hi: int, bound: int, p: nat)
    requires -bound < lo && hi < bound && lo * p <= x < hi * p && p > 0
    ensures Abs(x) < bound * p
  {
    AtLeast(bound - hi, p);
    Distribute(bound, hi, p);
    AtLeast(lo + bound, p);
    Distribute(lo, -bound, p);
    Negate(bound, p);
  }

  function LongUnit(coefficient: int): nat
    requires Count(Abs(coefficient)) > PRECISION
  {
    Pow10(Count(Abs(coefficient)) - PRECISION)
  }

  /** Beyond 28 significant digits the context rounds the product, and the result is the
      microsecond the epoch falls in exactly when what the coefficient carries below a
      microsecond is more than half a unit of the 28th digit short of the next one; otherwise
      it is one microsecond late, or out of range. */
  lemma EpochExactly(coefficient: int, scale: nat)
    requires EpochInRange(coefficient, scale) && Count(Abs(coefficient)) > PRECISION
    ensures scale >= 6
    ensures NormalizeEpoch(coefficient, scale) == Some(Floored(coefficient, scale)) <==>
            coefficient % Pow10(scale - 6) < Pow10(scale - 6) - LongUnit(coefficient) / 2
    ensures NormalizeEpoch(coefficient, scale) in
            {Some(Floored(coefficient, scale)), Some(Floored(coefficient, scale) + 1), None}
  {
    hide InRange, Count;
    var d := Count(Abs(coefficient));
    LongScale(coefficient, scale);
    var unit := LongUnit(coefficient);
    var e := Pow10(scale - 6 - (d - PRECISION));
    Pow10Add(d - PRECISION, scale - 6 - (d - PRECISION));
    assert Pow10(scale - 6) == unit * e;
    EvenPower(d - PRECISION);
    EvenPower(scale - 6 - (d - PRECISION));
    RoundCrosses(coefficient, unit, e);
    LongProduct(coefficient);
    Pow10Add(6, scale - 6);
    PowersOfTen();
    Cancel(RoundHalfEven(coefficient, unit), unit * e);
    Cancel(coefficient, unit * e);
    FlooredRange(coefficient, scale);
  }

  lemma EvenPower(n: nat)
    requires n >= 1
    ensures Pow10(n) % 2 == 0
  {
    assert Pow10(n) == 10 * Pow10(n - 1);
    hide Pow10;
    TenfoldIsEven(Pow10(n - 1));
  }

  lemma TenfoldIsEven(x: nat)
    ensures (10 * x) % 2 == 0
  {
    QuotientIs(10 * x, 2, 5 * x, 0);
  }

  lemma LongProduct(coefficient: int)
    requires Count(Abs(coefficient)) > PRECISION
    ensures Product(coefficient) == RoundHalfEven(coefficient, LongUnit(coefficient)) * 1_000_000
  {
    hide RoundHalfEven;
    var d := Count(Abs(coefficient));
    ProductDigits(coefficient);
    PowersOfTen();
    Pow10Add(6, d - PRECISION);
    RoundScaled(coefficient, LongUnit(coefficient));
  }

  lemma Cancel(x: int, n: nat)
    requires n > 0
    ensures 1_000_000 * n > 0 && (x * 1_000_000) / (1_000_000 * n) == x / n
  {
    var q, r := x / n, x % n;
    assert x == q * n + r;
    assert x * 1_000_000 == q * (1_000_000 * n) + r * 1_000_000;
    QuotientIs(x * 1_000_000, 1_000_000 * n, q, r * 1_000_000);
  }

  /** An input where it is late: 0.99999999999999999999999999999, with 29 nines. */
  lemma EpochOvershoots()
    ensures var nines := Pow10(29) - 1;
            && EpochInRange(nines, 29) && Count(Abs(nines)) == 29
            && NormalizeEpoch(nines, 29) != Some(Floored(nines, 29))
  {
    NineDigits();
    hide Pow10, Count, NormalizeEpoch, Floored;
    var nines := Pow10(29) - 1;
    CountIs(nines, 29);
    QuotientIs(nines, Pow10(23), 999_999, Pow10(23) - 1);
    EpochExactly(nines, 29);
  }

  lemma NineDigits()
    ensures Pow10(29) == 10 * Pow10(28) && Pow10(28) >= 1 && Pow10(29) == 1_000_000 * Pow10(23) && Pow10(1) == 10
  {
    assert Pow10(29) == 10 * Pow10(28);
    PowersOfTen();
    Pow10Add(6, 23);
  }

  // ----- Agreement of the two notations

  lemma TruncatedFraction(fraction: string)
    requires AllDigits(fraction)
    ensures Truncated(fraction) == Value(fraction) * 1_000_000 / Pow10(|fraction|)
  {
    PowersOfTen();
    hide Pow10, Value;
    var n := |fraction|;
    if n < 6 {
      Pow10Add(6 - n, n);
      ShortFraction(Value(fraction), Pow10(6 - n), Pow10(n));
    } else {
      var head, tail := fraction[..6], fraction[6..];
      assert fraction == head + tail;
      ValueAppend(head, tail);
      ValueBound(tail);
      Pow10Add(6, n - 6);
      LongFraction(Value(fraction), Pow10(n - 6), Value(head), Value(tail));
    }
  }

  lemma ShortFraction(value: nat, a: nat, b: nat)
    requires b > 0 && a * b == 1_000_000
    ensures value * a == value * 1_000_000 / b
  {
    Regroup(value, a, b);
    ExactQuotient(value * a, b);
  }

  lemma LongFraction(value: nat, p: nat, head: nat, tail: nat)
    requires p > 0 && value == head * p + tail && tail < p
    ensures 1_000_000 * p > 0 && head == value * 1_000_000 / (1_000_000 * p)
  {
    QuotientIs(value, p, head, tail);
    Cancel(value, p);
  }

  /** The second of an instant written with a fraction, as a numeric epoch: seconds and the
      fraction's digits together. */
  function EpochCoefficient(seconds: int, fraction: string): int
    requires AllDigits(fraction)
  {
    seconds * Pow10(|fraction|) + Value(fraction)
  }

  /** The microsecond such an epoch falls in: flooring agrees with truncating the fraction,
      before 1970 too. */
  lemma FlooredIs(seconds: int, fraction: string)
    requires AllDigits(fraction) && MIN_EPOCH <= seconds < MAX_EPOCH
    ensures EpochInRange(EpochCoefficient(seconds, fraction), |fraction|)
    ensures Floored(EpochCoefficient(seconds, fraction), |fraction|) == seconds * 1_000_000 + Truncated(fraction)
    ensures InRange(seconds * 1_000_000 + Truncated(fraction))
  {
    hide InRange, Pow10, Value, Truncated;
    var p := Pow10(|fraction|);
    ValueBound(fraction);
    CoefficientRange(seconds, Value(fraction), p);
    TruncatedFraction(fraction);
    FloorSpread(seconds, Value(fraction), p);
    FlooredRange(EpochCoefficient(seconds, fraction), |fraction|);
  }

  /** The same instant written as a numeric epoch and in RFC 3339 normalizes to the same
      microsecond. */
  lemma NotationsAgree(seconds: int, fraction: string)
    requires AllDigits(fraction) && MIN_EPOCH <= seconds < MAX_EPOCH
    requires Count(Abs(EpochCoefficient(seconds, fraction))) <= PRECISION
    ensures NormalizeEpoch(EpochCoefficient(seconds, fraction), |fraction|) == Some(seconds * 1_000_000 + Truncated(fraction))
  {
    hide InRange, Count, Product, NormalizeEpoch, Pow10, Value, Truncated, EpochInRange, Floored;
    FlooredIs(seconds, fraction);
    EpochFloors(EpochCoefficient(seconds, fraction), |fraction|);
  }

  lemma CoefficientRange(seconds: int, value: nat, p: nat)
    requires MIN_EPOCH <= seconds < MAX_EPOCH && value < p
    ensures MIN_EPOCH * p <= seconds * p + value < MAX_EPOCH * p
  {
    AtLeast(MAX_EPOCH - seconds, p);
    Distribute(MAX_EPOCH, seconds, p);
    if seconds > MIN_EPOCH {
      AtLeast(seconds - MIN_EPOCH, p);
    }
    Distribute(seconds, MIN_EPOCH, p);
  }

  lemma FloorSpread(seconds: int, value: nat, p: nat)
    requires p > 0
    ensures (seconds * p + value) * 1_000_000 / p == seconds * 1_000_000 + value * 1_000_000 / p
  {
    var v := value * 1_000_000;
    assert v == (v / p) * p + v % p;
    Spread(seconds, p, value, v / p, v % p);
    QuotientIs((seconds * p + value) * 1_000_000, p, seconds * 1_000_000 + v / p, v % p);
  }

  lemma Spread(seconds: int, p: nat, value: nat, q: int, r: int)
    requires value * 1_000_000 == q * p + r
    ensures (seconds * p + value) * 1_000_000 == (seconds * 1_000_000 + q) * p + r
  {
  }

  /** An RFC 3339 text normalizes to the instant of its fields, plus its truncated fraction,
      less its offset when it is ahead of UTC and plus it when behind. It is refused where that
      leaves the years 1 to 9999, and where the offset is a day or more. */
  lemma Rfc3339Agrees(f: Fields, fraction: string, h: nat, m: nat)
    requires Valid(f) && f.micro == 0 && AllDigits(fraction) && h <= 99 && m <= 99
    ensures var local, offset := Instant(f) + Truncated(fraction), (60 * h + m) * 60_000_000;
            && NormalizeRfc3339(SecondText(f) + Written(fraction) + "Z") == Some(local)
            && NormalizeRfc3339(SecondText(f) + Written(fraction) + "+" + Fixed(h, 2) + ":" + Fixed(m, 2))
                == (if 60 * h + m < 1440 && InRange(local - offset) then Some(local - offset) else None)
            && NormalizeRfc3339(SecondText(f) + Written(fraction) + "-" + Fixed(h, 2) + ":" + Fixed(m, 2))
                == (if 60 * h + m < 1440 && InRange(local + offset) then Some(local + offset) else None)
  {
    hide Fixed, Instant, InRange, Truncated, SecondText, NormalizeRfc3339, Written, DaysIn;
    var start := SecondText(f) + Written(fraction);
    Rfc3339Means(f, fraction, Zulu);
    WholeSecond(f, Truncated(fraction)) by { TruncatedBound(fraction); }
    Rfc3339Means(f, fraction, Ahead(h, m));
    assert start + "+" + Fixed(h, 2) + ":" + Fixed(m, 2) == start + Ahead(h, m).Text();
    Rfc3339Means(f, fraction, Behind(h, m));
    assert start + "-" + Fixed(h, 2) + ":" + Fixed(m, 2) == start + Behind(h, m).Text();
  }

  lemma Rfc3339Means(f: Fields, fraction: string, offset: Offset)
    requires Valid(f) && f.micro == 0 && AllDigits(fraction) && offset.TwoDigits()
    ensures var t := Instant(f) + Truncated(fraction) - offset.Micros();
            NormalizeRfc3339(Rfc3339Text(f, fraction, offset)) == if offset.UnderADay() && InRange(t) then Some(t) else None
  {
    hide Instant, InRange, SecondText, SecondsFields, DateShape, ClockShape, Written, Truncated, ZoneMinutes, ZoneShape, SplitFraction,
         NormalizeRfc3339, ValidDate;
    var rest, m := Written(fraction) + offset.Text(), Truncated(fraction);
    assert Rfc3339Text(f, fraction, offset) == SecondText(f) + rest;
    SecondParts(f, rest, m);
    OffsetParts(offset);
    FractionParts(fraction, offset.Text());
    TruncatedBound(fraction);
    WholeSecond(f, m);
    PartsMean(SecondText(f) + rest, f.(micro := m), fraction, offset.Text());
  }

  /** What the parser makes of the parts it finds. */
  lemma PartsMean(s: string, f: Fields, fraction: string, zone: string)
    requires DateShape(s) && ClockShape(s) && SplitFraction(s[19..]) == Some((fraction, zone)) && AllDigits(fraction) && ZoneShape(zone)
    requires SecondsFields(s, Truncated(fraction)) == f && Valid(f)
    ensures var z := ZoneMinutes(zone);
            var t := Instant(f) - z * 60_000_000;
            NormalizeRfc3339(s) == if -1440 < z < 1440 && InRange(t) then Some(t) else None
  {
    hide Instant, InRange, SecondsFields, Truncated, ZoneMinutes, ZoneShape, SplitFraction, Valid;
  }

  /** Nothing else is accepted. */
  lemma Rfc3339Only(s: string) returns (f: Fields, fraction: string, offset: Offset)
    requires NormalizeRfc3339(s).Some?
    ensures Valid(f) && f.micro == 0 && AllDigits(fraction) && offset.TwoDigits() && s == Rfc3339Text(f, fraction, offset)
  {
    var split := SplitFraction(s[19..]).value;
    SplitDigits(s[19..]);
    f, fraction := SecondsFields(s, 0), split.0;
    offset := OffsetOf(split.1);
    SecondsWritten(s);
    SplitWritten(s[19..]);
    hide Fixed, Value, DaysIn, SecondText, SecondsFields, ZoneMinutes;
    assert s == s[..19] + s[19..];
  }

  lemma SecondsWritten(s: string)
    requires DateShape(s) && ClockShape(s) && Valid(SecondsFields(s, 0))
    ensures SecondText(SecondsFields(s, 0)) == s[..19]
  {
    hide Fixed, Value, Valid;
    FixedOfValue(s[..4]);
    FixedOfValue(s[5..7]);
    FixedOfValue(s[8..10]);
    FixedOfValue(s[11..13]);
    FixedOfValue(s[14..16]);
    FixedOfValue(s[17..19]);
    SecondsJoin(s);
  }

  lemma SecondsJoin(s: string)
    requires |s| >= 20 && s[4] == '-' && s[7] == '-' && s[10] == 'T' && s[13] == ':' && s[16] == ':'
    ensures s[..4] + "-" + s[5..7] + "-" + s[8..10] + "T" + s[11..13] + ":" + s[14..16] + ":" + s[17..19] == s[..19]
  {
    assert s[..4] + "-" + s[5..7] == s[..7];
    assert s[..7] + "-" + s[8..10] == s[..10];
    assert s[..10] + "T" + s[11..13] == s[..13];
    assert s[..13] + ":" + s[14..16] == s[..16];
    assert s[..16] + ":" + s[17..19] == s[..19];
  }

  lemma SplitWritten(s: string)
    requires SplitFraction(s).Some?
    ensures Written(SplitFraction(s).value.0) + SplitFraction(s).value.1 == s
  {
    if s != "" && s[0] == '.' {
      var n := DigitRun(s[1..]);
      assert s == "." + s[1..][..n] + s[1..][n..];
    }
  }

  lemma OffsetOf(zone: string) returns (offset: Offset)
    requires ZoneShape(zone)
    ensures offset.TwoDigits() && offset.Text() == zone
  {
    if zone == "Z" {
      offset := Zulu;
    } else {
      var h, m := Value(zone[1..3]), Value(zone[4..6]);
      PowersOfTen();
      ValueBound(zone[1..3]);
      ValueBound(zone[4..6]);
      FixedOfValue(zone[1..3]);
      FixedOfValue(zone[4..6]);
      hide Fixed, Value, Pow10;
      offset := if zone[0] == '+' then Ahead(h, m) else Behind(h, m);
      assert zone == [zone[0]] + zone[1..3] + ":" + zone[4..6];
    }
  }

  /** Printing a normalized instant and normalizing it again gives it back. */
  lemma PrintRoundTrip(t: int)
    requires InRange(t)
    ensures NormalizeRfc3339(Print(t)) == Some(t)
  {
    hide Instant, FieldsOf, Fixed, Value, NormalizeRfc3339, SecondText, Truncated, DaysIn;
    FieldsOfRight(t);
    var f := FieldsOf(t);
    var whole := f.(micro := 0);
    var digits := Fixed(f.micro, 6);
    assert Print(t) == SecondText(whole) + Written(digits) + "Z" by { SameSecond(f); }
    Rfc3339Agrees(whole, digits, 0, 0);
    MicrosRead(f.micro);
    WholeSecond(whole, f.micro);
    assert whole.(micro := f.micro) == f;
  }

  lemma SameSecond(f: Fields)
    requires Valid(f)
    ensures SecondText(f.(micro := 0)) == SecondText(f)
  {
  }

  lemma MicrosRead(n: nat)
    requires n <= 999_999
    ensures Truncated(Fixed(n, 6)) == n
  {
    PowersOfTen();
    hide Fixed, Value;
    FixedValue(n, 6);
    assert Fixed(n, 6)[..6] == Fixed(n, 6);
  }

  /** So the canonical text determines the instant. */
  lemma PrintInjective(t: int, u: int)
    requires InRange(t) && InRange(u) && Print(t) == Print(u)
    ensures t == u
  {
    hide NormalizeRfc3339, Print;
    PrintRoundTrip(t);
    PrintRoundTrip(u);
  }

  lemma WholeSecond(f: Fields, m: int)
    requires Valid(f) && f.micro == 0 && 0 <= m <= 999_999
    ensures Instant(f.(micro := m)) == Instant(f) + m && InRange(Instant(f) + m)
    ensures Instant(f) % 1_000_000 == 0 && MIN_EPOCH <= Instant(f) / 1_000_000 < MAX_EPOCH
  {
    hide Ordinal;
    OrdinalRange(f.year, f.month, f.day);
    var seconds := (((Ordinal(f.year, f.month, f.day) - EPOCH_ORDINAL) * 24 + f.hour) * 60 + f.minute) * 60 + f.second;
    assert Instant(f) == seconds * 1_000_000;
  }

  lemma TruncatedBound(fraction: string)
    requires AllDigits(fraction)
    ensures 0 <= Truncated(fraction) <= 999_999
  {
    PowersOfTen();
    if |fraction| >= 6 {
      ValueBound(fraction[..6]);
    } else {
      ValueBound(fraction);
      Pow10Add(|fraction|, 6 - |fraction|);
      AtLeast(Pow10(|fraction|) - Value(fraction), Pow10(6 - |fraction|));
      Distribute(Pow10(|fraction|), Value(fraction), Pow10(6 - |fraction|));
    }
  }

  // ----- Text input

  function Signed(negative: bool, n: int): int {
    if negative then -n else n
  }

  /** The decimal an epoch string denotes, as coefficient and scale. */
  function EpochText(s: string): Option<(int, nat)> {
    if s != "" && (s[0] == '+' || s[0] == '-') then
      match UnsignedText(s[1..])
      case None => None
      case Some(d) => Some((Signed(s[0] == '-', d.0), d.1))
    else
      match UnsignedText(s)
      case None => None
      case Some(d) => Some((Signed(false, d.0), d.1))
  }

  function UnsignedText(s: string): Option<(nat, nat)> {
    var n := DigitRun(s);
    var rest := s[n..];
    if rest == "" then
      if n == 0 then None else Some((Value(s[..n]), 0))
    else if rest[0] != '.' || !AllDigits(rest[1..]) || (n == 0 && rest[1..] == "") then None
    else
      DigitsJoin(s[..n], rest[1..]);
      Some((Value(s[..n] + rest[1..]), |rest| - 1))
  }

  lemma DigitsJoin(s: string, t: string)
    requires AllDigits(s) && AllDigits(t)
    ensures AllDigits(s + t)
  {
  }

  /** `normalize_timestamp` on a string: a numeric epoch if it looks like one, RFC 3339
      otherwise. */
  function NormalizeText(s: string): Option<int> {
    match EpochText(s)
    case Some(d) => NormalizeEpoch(d.0, d.1)
    case None => NormalizeRfc3339(s)
  }

  /** An unsigned epoch as it is written: `12`, `12.`, `12.5` or `.5`. */
  predicate UnsignedParts(whole: string, fraction: string, point: bool) {
    AllDigits(whole) && AllDigits(fraction) && whole + fraction != "" && (fraction != "" ==> point)
  }

  function UnsignedWritten(whole: string, fraction: string, point: bool): string {
    whole + if point then "." + fraction else ""
  }

  lemma UnsignedTextIs(whole: string, fraction: string, point: bool)
    requires UnsignedParts(whole, fraction, point)
    ensures AllDigits(whole + fraction)
    ensures UnsignedText(UnsignedWritten(whole, fraction, point)) == Some((Value(whole + fraction), |fraction|))
  {
    hide Value, DigitRun;
    var rest := if point then "." + fraction else "";
    var s := whole + rest;
    RunOfDigits(whole, rest);
    assert s[..|whole|] == whole && s[|whole|..] == rest;
    if point {
      assert rest[1..] == fraction;
    } else {
      assert whole + fraction == whole;
    }
  }

  /** Nothing else looks like an epoch. */
  lemma EpochTextOnly(s: string) returns (sign: string, whole: string, fraction: string, point: bool)
    requires EpochText(s).Some?
    ensures sign in {"", "+", "-"} && UnsignedParts(whole, fraction, point) && s == sign + UnsignedWritten(whole, fraction, point)
  {
    sign := if s != "" && (s[0] == '+' || s[0] == '-') then s[..1] else "";
    hide UnsignedText, UnsignedWritten;
    whole, fraction, point := UnsignedOnly(s[|sign|..]);
    assert s == sign + s[|sign|..];
    assert sign != "" ==> sign == [s[0]];
  }

  lemma UnsignedOnly(u: string) returns (whole: string, fraction: string, point: bool)
    requires UnsignedText(u).Some?
    ensures UnsignedParts(whole, fraction, point) && u == UnsignedWritten(whole, fraction, point)
  {
    var n := DigitRun(u);
    whole, point := u[..n], u[n..] != "";
    fraction := if point then u[n..][1..] else "";
    assert u == whole + u[n..];
    assert point ==> u[n..] == "." + fraction;
    assert !point ==> u == whole + "";
  }

  /** The whole second at or before a signed epoch, and the digits from there on: before 1970
      the fraction is complemented unless it is zero. */
  function SignedSeconds(negative: bool, whole: string, fraction: string): int
    requires AllDigits(whole) && AllDigits(fraction)
  {
    if negative && Value(fraction) > 0 then Signed(true, Value(whole)) - 1 else Signed(negative, Value(whole))
  }

  function SignedFraction(negative: bool, fraction: string): (digits: string)
    requires AllDigits(fraction)
    ensures AllDigits(digits) && |digits| == |fraction|
  {
    if negative && Value(fraction) > 0 then
      ValueBound(fraction);
      Fixed(Pow10(|fraction|) - Value(fraction), |fraction|)
    else fraction
  }

  /** What a signed epoch text denotes: `-12.25` is 13 seconds before 1970 and .75 after that. */
  lemma SignedText(sign: string, whole: string, fraction: string, point: bool)
    requires sign in {"", "+", "-"} && UnsignedParts(whole, fraction, point)
    ensures var negative := sign == "-";
            EpochText(sign + UnsignedWritten(whole, fraction, point))
              == Some((EpochCoefficient(SignedSeconds(negative, whole, fraction), SignedFraction(negative, fraction)), |fraction|))
  {
    hide UnsignedText, Value, Pow10, Fixed;
    var u := UnsignedWritten(whole, fraction, point);
    UnsignedTextIs(whole, fraction, point);
    ValueAppend(whole, fraction);
    assert u[0] == '.' || IsDigit(u[0]);
    if sign == "" {
      assert sign + u == u;
    } else {
      assert (sign + u)[0] == sign[0] && (sign + u)[1..] == u;
    }
    ValueBound(fraction);
    if sign == "-" {
      Complement(Value(whole), Value(fraction), |fraction|);
    }
  }

  lemma Complement(w: int, v: nat, k: nat)
    requires v < Pow10(k)
    ensures v > 0 ==> -(w * Pow10(k) + v) == (-w - 1) * Pow10(k) + Value(Fixed(Pow10(k) - v, k))
    ensures v == 0 ==> -(w * Pow10(k) + v) == (-w) * Pow10(k) + v
  {
    hide Value, Fixed, Pow10;
    var p := Pow10(k);
    if v > 0 {
      FixedValue(p - v, k);
      Distribute(-w, 1, p);
    }
    Negate(w, p);
  }

  /** Every epoch in range is a whole second in range and the digits of a fraction. */
  lemma EpochParts(coefficient: int, scale: nat)
    requires EpochInRange(coefficient, scale)
    ensures var seconds, fraction := coefficient / Pow10(scale), Fixed(coefficient % Pow10(scale), scale);
            && MIN_EPOCH <= seconds < MAX_EPOCH && EpochCoefficient(seconds, fraction) == coefficient
  {
    hide Value, Fixed, Pow10;
    var p := Pow10(scale);
    FixedValue(coefficient % p, scale);
    Between(MIN_EPOCH, coefficient / p, MAX_EPOCH, p, coefficient);
  }

  lemma Rfc3339IsNoEpoch(f: Fields, rest: string)
    requires Valid(f) && rest != ""
    ensures EpochText(SecondText(f) + rest).None?
  {
    SecondParts(f, rest, 0);
    var s := SecondText(f) + rest;
    assert s[..4] + s[4..] == s;
    RunOfDigits(s[..4], s[4..]);
    assert IsDigit(s[..4][0]);
  }

  /** An epoch text and the fields, fraction and offset of an RFC 3339 text for one instant:
      the same whole second, before or after 1970 and at any offset, and the same fraction, or
      none. */
  predicate SameInstant(e: string, f: Fields, fraction: string, offset: Offset, seconds: int) {
    && AllDigits(fraction) && MIN_EPOCH <= seconds < MAX_EPOCH
    && EpochText(e) == Some((EpochCoefficient(seconds, fraction), |fraction|))
    && Valid(f) && f.micro == 0 && offset.TwoDigits() && offset.UnderADay()
    && Instant(f) - offset.Micros() == seconds * 1_000_000
  }

  /** The two texts normalize alike exactly when the epoch has at most 28 significant digits,
      or carries below a microsecond what `EpochExactly` allows; the RFC 3339 text always
      normalizes to the microsecond the instant falls in. */
  lemma TextsAgree(e: string, f: Fields, fraction: string, offset: Offset, seconds: int)
    requires SameInstant(e, f, fraction, offset, seconds)
    ensures NormalizeText(Rfc3339Text(f, fraction, offset)) == Some(seconds * 1_000_000 + Truncated(fraction))
    ensures var c, k := EpochCoefficient(seconds, fraction), |fraction|;
            NormalizeText(e) == NormalizeText(Rfc3339Text(f, fraction, offset)) <==>
              Count(Abs(c)) <= PRECISION || (k >= 6 && c % Pow10(k - 6) < Pow10(k - 6) - LongUnit(c) / 2)
  {
    hide EpochText, NormalizeEpoch, NormalizeRfc3339, Valid, Instant, Value, Truncated, Count, Pow10, LongUnit, SecondText, Written;
    hide InRange, EpochInRange, Floored;
    var rest := Written(fraction) + offset.Text();
    assert Rfc3339Text(f, fraction, offset) == SecondText(f) + rest;
    Rfc3339Means(f, fraction, offset);
    Rfc3339IsNoEpoch(f, rest);
    FlooredIs(seconds, fraction);
    var c := EpochCoefficient(seconds, fraction);
    if Count(Abs(c)) <= PRECISION {
      EpochFloors(c, |fraction|);
    } else {
      EpochExactly(c, |fraction|);
    }
  }
}
