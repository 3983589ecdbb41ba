/** UUID values, their text (RFC 9562, section 4) and the lenient reading of Python's `uuid.UUID`. */
module Uuids {
  import opened Common
  import opened Text

  predicate IsLowerHex(c: char) {
    '0' <= c <= '9' || 'a' <= c <= 'f'
  }

  predicate OnlyLowerHex(s: string) {
    s == [] || (IsLowerHex(s[0]) && OnlyLowerHex(s[1..]))
  }

  function Zeros(n: nat): (s: string)
    ensures |s| == n && OnlyLowerHex(s)
  {
    if n == 0 then "" else ['0'] + Zeros(n - 1)
  }

  /** The 128 bits of a UUID, written as 32 hexadecimal digits. */
  type Digits = s: string | |s| == 32 && OnlyLowerHex(s)
    witness Zeros(32)

  datatype Uuid = Uuid(digits: Digits)

  /** `str(uuid)`: 32 lower-case hexadecimal digits in groups of 8, 4, 4, 4 and 12. */
  function Format(u: Uuid): string {
    Grouped(u.digits)
  }

  /** The last digits of the text: a hyphen comes before the last 24, 20, 16 and 12 of them. */
  function Grouped(digits: string): string {
    if digits == [] then []
    else (if |digits| in {24, 20, 16, 12} then ['-', digits[0]] else [digits[0]]) + Grouped(digits[1..])
  }

  function LowerHex(c: char): (d: char)
    requires IsHexDigit(c)
    ensures IsLowerHex(d)
    ensures IsLowerHex(c) ==> d == c
  {
    if 'A' <= c <= 'F' then (c as int - 'A' as int + 'a' as int) as char else c
  }

  predicate AllHex(s: string) {
    forall i :: 0 <= i < |s| ==> IsHexDigit(s[i])
  }

  function LowerHexText(s: string): (t: string)
    requires AllHex(s)
    ensures |t| == |s| && OnlyLowerHex(t)
  {
    if s == [] then [] else [LowerHex(s[0])] + LowerHexText(s[1..])
  }

  function RemoveAll(s: string, pattern: string): string
    requires pattern != []
  {
    if |s| < |pattern| then s
    else if s[..|pattern|] == pattern then RemoveAll(s[|pattern|..], pattern)
    else [s[0]] + RemoveAll(s[1..], pattern)
  }

  function StripBraces(s: string): string {
    if s != [] && s[0] in {'{', '}'} then StripBraces(s[1..])
    else if s != [] && s[|s| - 1] in {'{', '}'} then StripBraces(s[..|s| - 1])
    else s
  }

  function RemoveHyphens(s: string): string {
    if s == [] then []
    else if s[0] == '-' then RemoveHyphens(s[1..])
    else [s[0]] + RemoveHyphens(s[1..])
  }

  /** `UUID(text)`: None stands for the `ValueError` of a text that names no UUID. */
  function Parse(s: string): Option<Uuid> {
    var digits := RemoveHyphens(StripBraces(RemoveAll(RemoveAll(s, "urn:"), "uuid:")));
    if |digits| == 32 && AllHex(digits) then Some(Uuid(LowerHexText(digits))) else None
  }

  lemma {:induction false} RemoveAllAbsent(s: string, pattern: string)
    requires pattern != [] && pattern[|pattern| - 1] !in s
    ensures RemoveAll(s, pattern) == s
  {
    if |s| >= |pattern| {
      assert s[|pattern| - 1] in s;
      assert s[..|pattern|][|pattern| - 1] == s[|pattern| - 1];
      RemoveAllAbsent(s[1..], pattern);
      assert s == [s[0]] + s[1..];
    }
  }

  lemma {:induction false} EachLowerHex(s: string)
    requires OnlyLowerHex(s)
    ensures forall c :: c in s ==> IsLowerHex(c)
    ensures AllHex(s) && LowerHexText(s) == s
  {
    if s != [] {
      EachLowerHex(s[1..]);
      assert s == [s[0]] + s[1..];
    }
  }

  lemma PrependDigit(d: char, rest: string)
    requires d != '-'
    ensures RemoveHyphens([d] + rest) == [d] + RemoveHyphens(rest)
    ensures RemoveHyphens(['-', d] + rest) == [d] + RemoveHyphens(rest)
  {
    assert ([d] + rest)[1..] == rest;
    assert (['-', d] + rest)[1..] == [d] + rest;
  }

  /** Dropping the hyphens of the text form gives back the digits. */
  lemma {:induction false} GroupedDigits(digits: string)
    requires forall c :: c in digits ==> IsLowerHex(c)
    ensures RemoveHyphens(Grouped(digits)) == digits
    ensures forall c :: c in Grouped(digits) ==> c == '-' || IsLowerHex(c)
  {
    if digits != [] {
      GroupedDigits(digits[1..]);
      var d, rest := digits[0], Grouped(digits[1..]);
      assert d in digits && digits == [d] + digits[1..];
      PrependDigit(d, rest);
    }
  }

  lemma NoBraces(s: string)
    requires s != [] && s[0] !in {'{', '}'} && s[|s| - 1] !in {'{', '}'}
    ensures StripBraces(s) == s
  {
  }

  /** Every UUID is read back from its text form. */
  lemma {:induction false} ParseFormat(u: Uuid)
    ensures Parse(Format(u)) == Some(u)
  {
    var s := Format(u);
    EachLowerHex(u.digits);
    GroupedDigits(u.digits);
    RemoveAllAbsent(s, "urn:");
    RemoveAllAbsent(s, "uuid:");
    assert s[0] in s && s[|s| - 1] in s;
    NoBraces(s);
  }

  lemma FormatInjective(u: Uuid, v: Uuid)
    requires Format(u) == Format(v)
    ensures u == v
  {
    ParseFormat(u);
    ParseFormat(v);
  }
}
