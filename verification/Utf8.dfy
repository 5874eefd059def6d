/** UTF-8 (RFC 3629): different strings have different bytes. */
module Utf8 {
  function EncodeChar(c: char): seq<int> {
    var n := c as int;
    if n < 0x80 then [n]
    else if n < 0x800 then [0xc0 + n / 64, 0x80 + n % 64]
    else if n < 0x10000 then [0xe0 + n / 4096, 0x80 + n / 64 % 64, 0x80 + n % 64]
    else [0xf0 + n / 262144, 0x80 + n / 4096 % 64, 0x80 + n / 64 % 64, 0x80 + n % 64]
  }

  function Encode(s: string): seq<int> {
    if s == "" then [] else EncodeChar(s[0]) + Encode(s[1..])
  }

  /** The first byte of a character says how many follow, and the bytes say which it is. */
  lemma CharCode(c: char, d: char, r: seq<int>, s: seq<int>)
    requires EncodeChar(c) + r == EncodeChar(d) + s
    ensures c == d && r == s
  {
    var x, y := EncodeChar(c) + r, EncodeChar(d) + s;
    var n := |EncodeChar(c)|;
    assert x[0] == EncodeChar(c)[0] && y[0] == EncodeChar(d)[0];
    assert |EncodeChar(d)| == n;
    assert forall i :: 0 <= i < n ==> x[i] == EncodeChar(c)[i] && y[i] == EncodeChar(d)[i];
    SameBytes(c, d);
    assert x[n..] == r && y[n..] == s;
  }

  lemma SameBytes(c: char, d: char)
    requires |EncodeChar(c)| == |EncodeChar(d)|
    requires forall i :: 0 <= i < |EncodeChar(c)| ==> EncodeChar(c)[i] == EncodeChar(d)[i]
    ensures c == d
  {
    var m, n := c as int, d as int;
    assert EncodeChar(c)[0] == EncodeChar(d)[0];
    if m >= 0x80 {
      assert EncodeChar(c)[1] == EncodeChar(d)[1];
    }
    if m >= 0x800 {
      assert EncodeChar(c)[2] == EncodeChar(d)[2];
    }
    if m >= 0x10000 {
      assert EncodeChar(c)[3] == EncodeChar(d)[3];
    }
    hide EncodeChar;
    Recompose(m);
    Recompose(n);
  }

  lemma Recompose(n: nat)
    ensures n == n / 64 * 64 + n % 64
    ensures n == n / 4096 * 4096 + n / 64 % 64 * 64 + n % 64
    ensures n == n / 262144 * 262144 + n / 4096 % 64 * 4096 + n / 64 % 64 * 64 + n % 64
  {
    assert n / 4096 == n / 64 / 64;
    assert n / 262144 == n / 4096 / 64;
  }

  lemma {:induction false} EncodeInjective(a: string, b: string)
    requires Encode(a) == Encode(b)
    ensures a == b
  {
    if a == "" || b == "" {
    } else {
      CharCode(a[0], b[0], Encode(a[1..]), Encode(b[1..]));
      EncodeInjective(a[1..], b[1..]);
      assert a == [a[0]] + a[1..] && b == [b[0]] + b[1..];
    }
  }
}
