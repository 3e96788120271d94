/** Numbers as text: what printf writes and what the C library reads back. */
module Text {
  const MAX64: nat := 0xFFFF_FFFF_FFFF_FFFF

  predicate IsSpace(c: char) {
    c == ' ' || c == '\t' || c == '\n' || c == '\r' || c as int == 11 || c as int == 12
  }

  function DigitValue(c: char): (v: nat)
    ensures v <= 16
  {
    if '0' <= c <= '9' then c as int - '0' as int
    else if 'a' <= c <= 'f' then c as int - 'a' as int + 10
    else if 'A' <= c <= 'F' then c as int - 'A' as int + 10
    else 16
  }

  predicate IsDigit(c: char, base: nat) {
    DigitValue(c) < base
  }

  function Digit(d: nat): (c: char)
    requires d < 16
    ensures DigitValue(c) == d && !IsSpace(c) && c != '-' && c != '+' && c != 'x' && c != 'X' && c as int != 0
  {
    if d < 10 then ('0' as int + d) as char else ('a' as int + d - 10) as char
  }

  /** %llu */
  function Dec(n: nat): (s: string)
    ensures s != []
  {
    if n < 10 then [Digit(n)] else Dec(n / 10) + [Digit(n % 10)]
  }

  /** The k lowest hexadecimal digits; %08x for k = 8. */
  function Hex(n: nat, k: nat): (s: string)
    ensures |s| == k
  {
    if k == 0 then [] else Hex(n / 16, k - 1) + [Digit(n % 16)]
  }

  function Hex8(n: nat): string {
    Hex(n, 8)
  }

  /** The value of a string of digits. */
  function Value(s: string, base: nat): nat {
    if s == [] then 0 else Value(s[..|s| - 1], base) * base + DigitValue(s[|s| - 1])
  }

  function SkipSpace(s: string, i: nat): (j: nat)
    requires i <= |s|
    ensures i <= j <= |s|
    decreases |s| - i
  {
    if i < |s| && IsSpace(s[i]) then SkipSpace(s, i + 1) else i
  }

  function SkipDigits(s: string, i: nat, base: nat): (j: nat)
    requires i <= |s|
    ensures i <= j <= |s|
    decreases |s| - i
  {
    if i < |s| && IsDigit(s[i], base) then SkipDigits(s, i + 1, base) else i
  }

  datatype Parsed = Parsed(value: nat, end: nat)

  predicate HexPrefix(s: string, k: nat) {
    k + 2 < |s| && s[k] == '0' && (s[k + 1] == 'x' || s[k + 1] == 'X') && IsDigit(s[k + 2], 16)
  }

  /** strtoull(s + i, &end, base) in 64 bits: white space, a sign, 0x for base 16,
      digits; end == i when there is no number. */
  function ParseInt(s: string, i: nat, base: nat): (p: Parsed)
    requires i <= |s|
    ensures i <= p.end <= |s| && p.value <= MAX64
  {
    var j := SkipSpace(s, i);
    var signed := j < |s| && (s[j] == '-' || s[j] == '+');
    var k := if signed then j + 1 else j;
    var k' := if base == 16 && HexPrefix(s, k) then k + 2 else k;
    var e := SkipDigits(s, k', base);
    if e == k' then Parsed(0, i)
    else
      var v := Value(s[k'..e], base);
      if v > MAX64 then Parsed(MAX64, e)
      else if signed && s[j] == '-' && v > 0 then Parsed(MAX64 + 1 - v, e)
      else Parsed(v, e)
  }

  /** The C string at the start of s: everything before the first NUL. */
  function CStr(s: string): (r: string)
    ensures |r| <= |s| && r == s[..|r|]
    ensures forall k :: 0 <= k < |r| ==> r[k] as int != 0
    ensures |r| < |s| ==> s[|r|] as int == 0
  {
    if s == [] || s[0] as int == 0 then [] else [s[0]] + CStr(s[1..])
  }

  lemma {:induction false} CStrWhole(s: string)
    requires forall k :: 0 <= k < |s| ==> s[k] as int != 0
    ensures CStr(s) == s
  {
    if s != [] {
      CStrWhole(s[1..]);
    }
  }

  // ---- reading back what was written ----

  lemma {:induction false} DecReads(n: nat)
    ensures Value(Dec(n), 10) == n
    ensures forall k :: 0 <= k < |Dec(n)| ==> IsDigit(Dec(n)[k], 10)
  {
    if n >= 10 {
      DecReads(n / 10);
      assert Dec(n)[..|Dec(n)| - 1] == Dec(n / 10);
    } else {
      assert Dec(n)[..0] == [];
    }
  }

  lemma {:induction false} HexReads(n: nat, k: nat)
    requires n < Power16(k)
    ensures Value(Hex(n, k), 16) == n
    ensures forall i :: 0 <= i < k ==> IsDigit(Hex(n, k)[i], 16)
  {
    if k > 0 {
      HexReads(n / 16, k - 1);
      assert Hex(n, k)[..k - 1] == Hex(n / 16, k - 1);
    }
  }

  function Power16(k: nat): nat {
    if k == 0 then 1 else 16 * Power16(k - 1)
  }

  lemma {:induction false} DigitsEnd(s: string, i: nat, e: nat, base: nat)
    requires i <= e <= |s|
    requires forall k :: i <= k < e ==> IsDigit(s[k], base)
    requires e == |s| || !IsDigit(s[e], base)
    ensures SkipDigits(s, i, base) == e
    decreases e - i
  {
    if i < e {
      DigitsEnd(s, i + 1, e, base);
    }
  }

  lemma DigitShape(c: char, base: nat)
    requires IsDigit(c, base) && base <= 16
    ensures !IsSpace(c) && c != '-' && c != '+' && c != 'x' && c != 'X' && c as int != 0 && c != '\n'
  {}

  /** A number standing at position i, followed by something that is no digit, is read
      back exactly, and the reader stops right after it. */
  lemma ParseNumber(s: string, i: nat, digits: string, base: nat)
    requires base <= 16
    requires i + |digits| <= |s| && s[i..i + |digits|] == digits && digits != []
    requires forall k :: 0 <= k < |digits| ==> IsDigit(digits[k], base)
    requires i + |digits| == |s| || IsSpace(s[i + |digits|])
    requires Value(digits, base) <= MAX64
    ensures ParseInt(s, i, base) == Parsed(Value(digits, base), i + |digits|)
  {
    var e := i + |digits|;
    forall k | i <= k < e
      ensures IsDigit(s[k], base) && !IsSpace(s[k]) && s[k] != '-' && s[k] != '+' && s[k] != 'x' && s[k] != 'X'
    {
      assert s[k] == digits[k - i];
      DigitShape(s[k], base);
    }
    assert e < |s| ==> !IsDigit(s[e], base) && s[e] != 'x' && s[e] != 'X';
    DigitsEnd(s, i, e, base);
    assert SkipSpace(s, i) == i;
    NoHexPrefix(s, i, e);
  }

  lemma NoHexPrefix(s: string, i: nat, e: nat)
    requires i < e <= |s|
    requires forall k :: i <= k < e ==> s[k] != 'x' && s[k] != 'X'
    requires e < |s| ==> s[e] != 'x' && s[e] != 'X'
    ensures !HexPrefix(s, i)
  {}
}
