/** Decimal digits: how numbers are written and read back. */
module Digits {
  predicate IsDigit(c: char) {
    '0' <= c <= '9'
  }

  predicate AllDigits(s: string) {
    forall i :: 0 <= i < |s| ==> IsDigit(s[i])
  }

  function DigitOf(d: nat): char
    requires d < 10
  {
    '0' + d as char
  }

  function ValueOf(c: char): nat
    requires IsDigit(c)
  {
    (c - '0') as nat
  }

  function Pow10(n: nat): nat
    ensures Pow10(n) > 0
  {
    if n == 0 then 1 else 10 * Pow10(n - 1)
  }

  /** The number a string of digits denotes. */
  function Value(s: string): nat
    requires AllDigits(s)
  {
    if s == "" then 0 else 10 * Value(s[..|s| - 1]) + ValueOf(s[|s| - 1])
  }

  /** `n` in exactly `width` digits. */
  function Fixed(n: nat, width: nat): (s: string)
    ensures |s| == width && AllDigits(s)
  {
    if width == 0 then "" else Fixed(n / 10, width - 1) + [DigitOf(n % 10)]
  }

  /** `n` without leading zeros. */
  function Decimal(n: nat): (s: string)
    ensures |s| >= 1 && AllDigits(s)
  {
    if n < 10 then [DigitOf(n)] else Decimal(n / 10) + [DigitOf(n % 10)]
  }

  lemma {:induction false} FixedValue(n: nat, width: nat)
    requires n < Pow10(width)
    ensures Value(Fixed(n, width)) == n
  {
    if width > 0 {
      FixedValue(n / 10, width - 1);
      var s := Fixed(n, width);
      assert s[..width - 1] == Fixed(n / 10, width - 1);
    }
  }

  lemma {:induction false} DecimalValue(n: nat)
    ensures Value(Decimal(n)) == n
  {
    if n < 10 {
      assert Decimal(n)[..0] == "";
    } else {
      DecimalValue(n / 10);
      var s := Decimal(n);
      assert s[..|s| - 1] == Decimal(n / 10);
    }
  }

  lemma DecimalInjective(m: nat, n: nat)
    requires Decimal(m) == Decimal(n)
    ensures m == n
  {
    DecimalValue(m);
    DecimalValue(n);
  }

  lemma {:induction false} ValueBound(s: string)
    requires AllDigits(s)
    ensures Value(s) < Pow10(|s|)
  {
    if s != "" {
      ValueBound(s[..|s| - 1]);
    }
  }

  /** Appending digits shifts and adds. */
  lemma {:induction false} ValueAppend(s: string, t: string)
    requires AllDigits(s) && AllDigits(t)
    ensures AllDigits(s + t) && Value(s + t) == Value(s) * Pow10(|t|) + Value(t)
  {
    if t == "" {
      assert s + t == s;
    } else {
      var n := |t| - 1;
      ValueAppend(s, t[..n]);
      assert (s + t)[..|s + t| - 1] == s + t[..n];
      assert Value(s + t) == 10 * Value(s + t[..n]) + ValueOf(t[n]);
      assert Pow10(|t|) == 10 * Pow10(n);
      Rearrange(Value(s), Pow10(n), Value(t[..n]), ValueOf(t[n]));
    }
  }

  lemma Rearrange(a: nat, p: nat, b: nat, d: nat)
    ensures 10 * (a * p + b) + d == a * (10 * p) + (10 * b + d)
  {
  }

  lemma {:induction false} Pow10Add(m: nat, n: nat)
    ensures Pow10(m + n) == Pow10(m) * Pow10(n)
  {
    if m > 0 {
      Pow10Add(m - 1, n);
      assert Pow10(m + n) == 10 * Pow10(m - 1 + n);
      Associate(Pow10(m - 1), Pow10(n));
    }
  }

  lemma Associate(a: nat, b: nat)
    ensures 10 * (a * b) == (10 * a) * b
  {
  }

  /** How many digits `n` is written with; zero takes one. */
  function Count(n: nat): nat {
    if n < 10 then 1 else 1 + Count(n / 10)
  }

  lemma {:induction false} CountBounds(n: nat)
    ensures n < Pow10(Count(n)) && (n > 0 ==> Pow10(Count(n) - 1) <= n) && Count(n) >= 1
  {
    if n >= 10 {
      CountBounds(n / 10);
      assert Count(n) - 1 == Count(n / 10);
      assert Pow10(Count(n)) == 10 * Pow10(Count(n / 10));
      assert Pow10(Count(n / 10)) == 10 * Pow10(Count(n / 10) - 1);
    } else {
      assert Pow10(1) == 10 * Pow10(0);
    }
  }

  lemma {:induction false} Pow10Monotone(m: nat, n: nat)
    requires m <= n
    ensures Pow10(m) <= Pow10(n)
  {
    if m < n {
      Pow10Monotone(m, n - 1);
    }
  }

  /** The digit count is the one exponent that brackets the number. */
  lemma CountIs(n: nat, c: nat)
    requires c >= 1 && Pow10(c - 1) <= n < Pow10(c)
    ensures Count(n) == c
  {
    CountBounds(n);
    if Count(n) < c {
      Pow10Monotone(Count(n), c - 1);
    } else if Count(n) > c {
      Pow10Monotone(c, Count(n) - 1);
    }
  }

  /** A number ends where its digits end. */
  lemma {:induction false} ReadDigits(a: string, b: string, r: string, s: string)
    requires AllDigits(a) && AllDigits(b) && a + r == b + s
    requires (r != "" ==> !IsDigit(r[0])) && (s != "" ==> !IsDigit(s[0]))
    ensures a == b && r == s
  {
    if |a| < |b| {
      LongerDiffers(a, b, r, s);
    } else if |b| < |a| {
      LongerDiffers(b, a, s, r);
    } else {
      assert (a + r)[..|a|] == a && (b + s)[..|b|] == b;
      assert (a + r)[|a|..] == r && (b + s)[|b|..] == s;
    }
  }

  lemma LongerDiffers(a: string, b: string, r: string, s: string)
    requires AllDigits(b) && |a| < |b| && (r != "" ==> !IsDigit(r[0]))
    ensures a + r != b + s
  {
    assert (b + s)[|a|] == b[|a|];
    if r != "" {
      assert (a + r)[|a|] == r[0];
    }
  }
}
