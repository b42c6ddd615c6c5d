/**
  Decimal text of integers, as the kernel's C library produces and consumes it:
  the `%u` and `%d` conversions of `sprintf`, and `simple_strtoul` with base 10.
  One `char` stands for one byte; every character these functions produce is ASCII.
*/
module Decimal {

  /** C `unsigned int` and `int` on the targets of the module. */
  type uint32 = x: int | 0 <= x < 0x1_0000_0000
  type int32 = x: int | -0x8000_0000 <= x < 0x8000_0000

  const UINT32_MODULUS: nat := 0x1_0000_0000
  /**
    `simple_strtoul` accumulates in an `unsigned long`, taken here as 64 bits wide. On a 32-bit
    kernel it is 32 bits; the 32-bit threshold stored is the same either way (TruncateWrapped).
  */
  const ULONG_MODULUS: nat := 0x1_0000_0000_0000_0000

  predicate IsDigit(c: char) {
    '0' <= c <= '9'
  }

  predicate AllDigits(s: string) {
    forall i | 0 <= i < |s| :: IsDigit(s[i])
  }

  function DigitValue(c: char): (d: nat)
    requires IsDigit(c)
    ensures d < 10
  {
    c as int - '0' as int
  }

  function DigitChar(d: nat): (c: char)
    requires d < 10
    ensures IsDigit(c) && DigitValue(c) == d
  {
    ('0' as int + d) as char
  }

  /** The text `%u` prints for `n`: decimal digits, most significant first, no leading zero. */
  function FormatUnsigned(n: nat): (s: string)
    ensures |s| >= 1 && AllDigits(s)
    ensures s[0] == '0' <==> n == 0
    ensures n == 0 ==> s == "0"
    decreases n
  {
    if n < 10 then [DigitChar(n)] else FormatUnsigned(n / 10) + [DigitChar(n % 10)]
  }

  /** The text `%d` prints for `x`: a minus sign for a negative value, then the digits of its magnitude. */
  function FormatSigned(x: int): (s: string)
    ensures |s| >= 1 && (s[0] == '-' <==> x < 0)
    ensures forall i | 0 <= i < |s| :: IsDigit(s[i]) || (i == 0 && s[i] == '-')
  {
    if x < 0 then "-" + FormatUnsigned(-x) else FormatUnsigned(x)
  }

  /** The number a string of digits denotes, read most significant digit first. */
  function DigitsValue(s: string): nat
    requires AllDigits(s)
  {
    if s == [] then 0 else DigitsValue(s[..|s| - 1]) * 10 + DigitValue(s[|s| - 1])
  }

  /** The length of the run of digits at the start of `s`. */
  function DigitRun(s: string): (k: nat)
    ensures k <= |s| && AllDigits(s[..k])
    ensures k < |s| ==> !IsDigit(s[k])
  {
    if s == [] || !IsDigit(s[0]) then 0 else 1 + DigitRun(s[1..])
  }

  /** The value of the leading digits of `s`, unbounded; 0 when `s` does not start with a digit. */
  function ParseUnsigned(s: string): (n: nat)
    ensures DigitRun(s) == 0 ==> n == 0
  {
    DigitsValue(s[..DigitRun(s)])
  }

  /**
    `simple_strtoul(s, &end, 10)`: no white space is skipped and no sign is accepted; the
    digits are accumulated as `result * 10 + digit` in an `unsigned long`, which wraps.
  */
  function StrToUL(s: string): (r: nat)
    ensures r < ULONG_MODULUS
    ensures ParseUnsigned(s) < ULONG_MODULUS ==> r == ParseUnsigned(s)
  {
    ParseUnsigned(s) % ULONG_MODULUS
  }

  /** How a reader of `%d` text recovers the number: an optional minus sign, then the leading digits. */
  function ParseSigned(s: string): int {
    if |s| > 0 && s[0] == '-' then -(ParseUnsigned(s[1..]) as int) else ParseUnsigned(s)
  }

  function Pow10(k: nat): (p: nat)
    ensures p >= 1
  {
    if k == 0 then 1 else 10 * Pow10(k - 1)
  }

  /** The digits `%u` prints denote the number printed. */
  lemma {:induction false} DigitsValueOfFormat(n: nat)
    ensures DigitsValue(FormatUnsigned(n)) == n
    decreases n
  {
    if n >= 10 {
      var s := FormatUnsigned(n / 10);
      var t := s + [DigitChar(n % 10)];
      assert t[..|t| - 1] == s;
      DigitsValueOfFormat(n / 10);
    } else {
      assert FormatUnsigned(n)[..0] == [];
    }
  }

  /** A parse of digits stops exactly where the digits end. */
  lemma {:induction false} DigitRunOfDigits(s: string, rest: string)
    requires AllDigits(s)
    requires rest == [] || !IsDigit(rest[0])
    ensures DigitRun(s + rest) == |s|
  {
    if s == [] {
      assert s + rest == rest;
    } else {
      assert (s + rest)[1..] == s[1..] + rest;
      DigitRunOfDigits(s[1..], rest);
    }
  }

  /** Parsing the `%u` text of `n`, followed by anything that is not a digit, gives back `n`. */
  lemma ParseFormatted(n: nat, rest: string)
    requires rest == [] || !IsDigit(rest[0])
    ensures ParseUnsigned(FormatUnsigned(n) + rest) == n
  {
    var s := FormatUnsigned(n);
    DigitRunOfDigits(s, rest);
    assert (s + rest)[..|s|] == s;
    DigitsValueOfFormat(n);
  }

  /** Reading back the `%d` text of any integer gives that integer. */
  lemma ParseFormattedSigned(x: int)
    ensures ParseSigned(FormatSigned(x)) == x
  {
    if x < 0 {
      var s := FormatUnsigned(-x);
      assert FormatSigned(x) == "-" + s;
      assert ParseUnsigned(("-" + s)[1..]) == -x by {
        assert ("-" + s)[1..] == s + [];
        ParseFormatted(-x, []);
      }
    } else {
      assert ParseUnsigned(FormatUnsigned(x)) == x by {
        assert FormatUnsigned(x) == FormatUnsigned(x) + [];
        ParseFormatted(x, []);
      }
    }
  }

  /** A number below 10^k has at most k digits. */
  lemma {:induction false} FormatWidth(n: nat, k: nat)
    requires 1 <= k && n < Pow10(k)
    ensures |FormatUnsigned(n)| <= k
    decreases k
  {
    if n >= 10 {
      assert Pow10(k) == 10 * Pow10(k - 1);
      assert n / 10 < Pow10(k - 1);
      FormatWidth(n / 10, k - 1);
    }
  }

  /** `%u` of an `unsigned int` prints at most ten digits. */
  lemma UnsignedWidth(n: uint32)
    ensures |FormatUnsigned(n)| <= 10
  {
    assert Pow10(10) == 10_000_000_000;
    FormatWidth(n, 10);
  }

  /** `%d` of an `int` prints at most eleven characters ("-2147483648"). */
  lemma SignedWidth(x: int32)
    ensures |FormatSigned(x)| <= 11
  {
    if x < 0 {
      UnsignedWidth(-(x as int));
    } else {
      UnsignedWidth(x);
    }
  }

  /** Truncating to 32 bits after wrapping at 64 bits is truncating to 32 bits. */
  lemma TruncateWrapped(x: nat)
    ensures x % ULONG_MODULUS % UINT32_MODULUS == x % UINT32_MODULUS
  {
    var q := x / ULONG_MODULUS;
    var r := x % ULONG_MODULUS;
    var b := r % UINT32_MODULUS;
    assert r == (r / UINT32_MODULUS) * UINT32_MODULUS + b;
    assert x == (q * UINT32_MODULUS + r / UINT32_MODULUS) * UINT32_MODULUS + b;
  }
}
