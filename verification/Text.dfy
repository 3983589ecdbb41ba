/**
 * Decimal and hexadecimal text of numbers, and the order of strings by code point.
 * Shared by the JSON encoder (RFC 8259, sections 6 and 7) and by the UUID text form
 * (RFC 9562, section 4).
 */
module Text {

  predicate IsDigit(c: char) { '0' <= c <= '9' }

  function Digit(d: nat): (c: char)
    requires d < 10
    ensures IsDigit(c) && c as int == '0' as int + d
  {
    ('0' as int + d) as char
  }

  /** Decimal text without leading zeros, as Python prints a non-negative integer. */
  function NatText(n: nat): (s: string)
    ensures |s| > 0 && forall c :: c in s ==> IsDigit(c)
  {
    if n < 10 then [Digit(n)] else NatText(n / 10) + [Digit(n % 10)]
  }

  function IntText(n: int): string {
    if n < 0 then "-" + NatText(-n) else NatText(n)
  }

  lemma {:induction false} NatTextInjective(a: nat, b: nat)
    requires NatText(a) == NatText(b)
    ensures a == b
  {
    var s, t := NatText(a), NatText(b);
    assert s[|s| - 1] == Digit(a % 10) && t[|t| - 1] == Digit(b % 10);
    if a >= 10 && b >= 10 {
      assert s[..|s| - 1] == NatText(a / 10) && t[..|t| - 1] == NatText(b / 10);
      NatTextInjective(a / 10, b / 10);
    }
  }

  /** A decimal number ends where the digits end. */
  lemma {:induction false} NatTextPrefix(a: nat, b: nat, x: string, y: string)
    requires NatText(a) + x == NatText(b) + y
    requires x == [] || !IsDigit(x[0])
    requires y == [] || !IsDigit(y[0])
    ensures a == b && x == y
  {
    var s, t := NatText(a), NatText(b);
    assert s == (s + x)[..|s|] && t == (t + y)[..|t|];
    assert x == (s + x)[|s|..] && y == (t + y)[|t|..];
    NatTextInjective(a, b);
  }

  lemma IntTextPrefix(a: int, b: int, x: string, y: string)
    requires IntText(a) + x == IntText(b) + y
    requires x == [] || !IsDigit(x[0])
    requires y == [] || !IsDigit(y[0])
    ensures a == b && x == y
  {
    var s, t := IntText(a), IntText(b);
    assert (s + x)[0] == s[0] && (t + y)[0] == t[0];
    assert NatText(if a < 0 then -a else a)[0] in NatText(if a < 0 then -a else a);
    assert NatText(if b < 0 then -b else b)[0] in NatText(if b < 0 then -b else b);
    if a < 0 {
      assert (s + x)[1..] == NatText(-a) + x && (t + y)[1..] == NatText(-b) + y;
      NatTextPrefix(-a, -b, x, y);
    } else {
      NatTextPrefix(a, b, x, y);
    }
  }

  // ---- Hexadecimal ----

  function HexDigit(d: nat): (c: char)
    requires d < 16
  {
    if d < 10 then ('0' as int + d) as char else ('a' as int + d - 10) as char
  }

  predicate IsHexDigit(c: char) {
    '0' <= c <= '9' || 'a' <= c <= 'f' || 'A' <= c <= 'F'
  }

  function HexDigitValue(c: char): (d: nat)
    requires IsHexDigit(c)
    ensures d < 16
  {
    if c <= '9' then c as int - '0' as int
    else if c <= 'F' then c as int - 'A' as int + 10
    else c as int - 'a' as int + 10
  }

  function Pow16(n: nat): (p: nat)
    ensures p >= 1
  {
    if n == 0 then 1 else 16 * Pow16(n - 1)
  }

  /** The `n` lowest hexadecimal digits of `x`, most significant first, in lower case. */
  function HexText(x: nat, n: nat): (s: string)
    ensures |s| == n
    ensures forall c :: c in s ==> IsHexDigit(c)
  {
    if n == 0 then "" else HexText(x / 16, n - 1) + [HexDigit(x % 16)]
  }

  function HexValue(s: string): (x: nat)
    requires forall c :: c in s ==> IsHexDigit(c)
    ensures x < Pow16(|s|)
  {
    if s == [] then 0 else
      assert forall c :: c in s[..|s| - 1] ==> c in s;
      16 * HexValue(s[..|s| - 1]) + HexDigitValue(s[|s| - 1])
  }

  lemma {:induction false} HexRoundTrip(x: nat, n: nat)
    requires x < Pow16(n)
    ensures HexValue(HexText(x, n)) == x
  {
    if n > 0 {
      HexRoundTrip(x / 16, n - 1);
      assert HexText(x, n)[..n - 1] == HexText(x / 16, n - 1);
      assert HexText(x, n)[n - 1] == HexDigit(x % 16);
    }
  }

  lemma HexTextInjective(x: nat, y: nat, n: nat)
    requires x < Pow16(n) && y < Pow16(n)
    requires HexText(x, n) == HexText(y, n)
    ensures x == y
  {
    HexRoundTrip(x, n);
    HexRoundTrip(y, n);
  }

  // ---- Order of strings by code point, the order of Python's `sorted` ----

  predicate StringLeq(a: string, b: string) {
    a == [] || (b != [] && (a[0] < b[0] || (a[0] == b[0] && StringLeq(a[1..], b[1..]))))
  }

  lemma {:induction false} StringLeqTotal(a: string, b: string)
    ensures StringLeq(a, b) || StringLeq(b, a)
    ensures StringLeq(a, b) && StringLeq(b, a) ==> a == b
  {
    if a != [] && b != [] && a[0] == b[0] {
      StringLeqTotal(a[1..], b[1..]);
      assert a == [a[0]] + a[1..] && b == [b[0]] + b[1..];
    }
  }

  lemma {:induction false} StringLeqTransitive(a: string, b: string, c: string)
    requires StringLeq(a, b) && StringLeq(b, c)
    ensures StringLeq(a, c)
  {
    if a != [] && a[0] == b[0] && b[0] == c[0] {
      StringLeqTransitive(a[1..], b[1..], c[1..]);
    }
  }
}
