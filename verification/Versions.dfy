/**
`getVersion` of CL/cl.hpp and CL/cl2.hpp, which turns "OpenCL major.minor ..." (the format of section
4.1 of the OpenCL 1.2 specification) into major in the upper and minor in the lower 16 bits, and the
two run-time decisions taken on the result.
*/
module Versions {
  import opened Prelude

  const WORD := 0x1_0000_0000

  // ---------------------------------------------------------------- decimal numbers

  predicate IsDigit(c: char) {
    '0' <= c <= '9'
  }

  /** `c - '0'`, whatever the character; the digits start at 48. */
  function Digit(c: char): (d: int)
    ensures d + 48 == c as int
  {
    c as int - '0' as int
  }

  /** The number a string of digits denotes. */
  function Value(s: string): int {
    if s == "" then 0 else Value(s[..|s| - 1]) * 10 + Digit(s[|s| - 1])
  }

  predicate AllDigits(s: string) {
    forall i :: 0 <= i < |s| ==> IsDigit(s[i])
  }

  function Print(n: nat): (s: string)
    ensures |s| > 0 && AllDigits(s)
  {
    if n < 10 then [('0' as int + n) as char] else Print(n / 10) + [('0' as int + n % 10) as char]
  }

  lemma {:induction false} ValueOfPrint(n: nat)
    ensures Value(Print(n)) == n
  {
    if n < 10 {
      assert Print(n)[..0] == "";
    } else {
      ValueOfPrint(n / 10);
      assert Print(n)[..|Print(n)| - 1] == Print(n / 10);
    }
  }

  // ---------------------------------------------------------------- bits

  /** Bitwise or of two non-negative numbers. */
  function Or(a: nat, b: nat): nat
    decreases a + b
  {
    if a == 0 && b == 0 then 0
    else (if a % 2 == 1 || b % 2 == 1 then 1 else 0) + 2 * Or(a / 2, b / 2)
  }

  predicate Bit(a: nat, k: nat) {
    if k == 0 then a % 2 == 1 else Bit(a / 2, k - 1)
  }

  lemma {:induction false} OrBits(a: nat, b: nat, k: nat)
    ensures Bit(Or(a, b), k) <==> Bit(a, k) || Bit(b, k)
    decreases k
  {
    if a == 0 && b == 0 {
      if k > 0 {
        OrBits(0, 0, k - 1);
      }
    } else {
      assert Or(a, b) / 2 == Or(a / 2, b / 2);
      if k > 0 {
        OrBits(a / 2, b / 2, k - 1);
      }
    }
  }

  function Power2(k: nat): (p: nat)
    ensures p > 0
  {
    if k == 0 then 1 else 2 * Power2(k - 1)
  }

  lemma {:induction false} OrRightZero(a: nat)
    ensures Or(a, 0) == a
  {
    if a > 0 {
      OrRightZero(a / 2);
    }
  }

  lemma ShiftOnce(a: nat, k: nat)
    requires k > 0
    ensures a * Power2(k) == 2 * (a * Power2(k - 1))
  {
  }

  lemma OrOfDouble(x: nat, b: nat)
    ensures Or(2 * x, b) == b % 2 + 2 * Or(x, b / 2)
  {
    assert 2 * x / 2 == x && 2 * x % 2 == 0;
  }

  /** A number below 2^k does not overlap one shifted left by k. */
  lemma {:induction false} OrOfShifted(a: nat, b: nat, k: nat)
    requires b < Power2(k)
    ensures Or(a * Power2(k), b) == a * Power2(k) + b
  {
    if k == 0 {
      OrRightZero(a);
    } else {
      ShiftOnce(a, k);
      OrOfShifted(a, b / 2, k - 1);
      OrOfDouble(a * Power2(k - 1), b);
    }
  }

  // ---------------------------------------------------------------- the parser

  /** `high << 16 | low` in 32 bits, for accumulators that hold their values modulo 2^32. */
  function Pack(high: nat, low: nat): nat {
    Or(high * 0x10000 % WORD, low % WORD)
  }

  predicate Ends(c: char) {
    c == ' ' || c == '\0'
  }

  /** Seven characters, then up to a dot, then up to a space or terminator. */
  predicate Formatted(s: string, dot: nat, end: nat) {
    && 7 <= dot < end < |s|
    && s[dot] == '.' && (forall i :: 7 <= i < dot ==> s[i] != '.')
    && Ends(s[end]) && (forall i :: dot < i < end ==> !Ends(s[i]))
  }

  lemma ModularShift(x: int, k: int)
    ensures (x + WORD * k) % WORD == x % WORD
  {
  }

  lemma Accumulate(v: int, d: int)
    ensures (v % WORD * 10 + d) % WORD == (v * 10 + d) % WORD
  {
    var q := v / WORD;
    assert v * 10 + d == v % WORD * 10 + d + WORD * (10 * q);
    ModularShift(v % WORD * 10 + d, 10 * q);
  }

  /** Where the format puts the dot and the end is determined by the string. */
  lemma FormatIsUnique(s: string, dot: nat, end: nat, dot': nat, end': nat)
    requires Formatted(s, dot, end) && Formatted(s, dot', end')
    ensures dot == dot' && end == end'
  {
  }

  lemma NextDigit(s: string, from: nat, i: nat)
    requires from <= i < |s|
    ensures Value(s[from..i + 1]) == Value(s[from..i]) * 10 + Digit(s[i])
  {
    assert s[from..i + 1][..i - from] == s[from..i];
  }

  /** The first loop: up to the dot.  `index` is past the string when there is none. */
  method ReadMajor(s: string) returns (high: int, index: nat)
    ensures 7 <= index && forall i :: 7 <= i < index && i < |s| ==> s[i] != '.'
    ensures index < |s| ==> s[index] == '.' && high == Value(s[7..index]) % WORD
  {
    high, index := 0, 7;
    while index < |s| && s[index] != '.'
      invariant 7 <= index && forall i :: 7 <= i < index && i < |s| ==> s[i] != '.'
      invariant index <= |s| ==> high == Value(s[7..index]) % WORD
    {
      NextDigit(s, 7, index);
      Accumulate(Value(s[7..index]), Digit(s[index]));
      high := (high * 10 + Digit(s[index])) % WORD;
      index := index + 1;
    }
  }

  /** The second loop: from behind the dot up to a space or terminator. */
  method ReadMinor(s: string, from: nat) returns (low: int, index: nat)
    requires from <= |s|
    ensures from <= index <= |s| && forall i :: from <= i < index ==> !Ends(s[i])
    ensures index < |s| ==> Ends(s[index]) && low == Value(s[from..index]) % WORD
  {
    low, index := 0, from;
    while index < |s| && !Ends(s[index])
      invariant from <= index <= |s| && forall i :: from <= i < index ==> !Ends(s[i])
      invariant low == Value(s[from..index]) % WORD
    {
      NextDigit(s, from, index);
      Accumulate(Value(s[from..index]), Digit(s[index]));
      low := (low * 10 + Digit(s[index])) % WORD;
      index := index + 1;
    }
  }

  /** The parser, with its 32-bit accumulators; none when it reads past the end of the string.  It gives a
      result exactly for strings of the format, and then that of the two numbers. */
  method GetVersion(versionInfo: string) returns (version: Option<int>)
    ensures version.Some? <==> exists dot: nat, end: nat :: Formatted(versionInfo, dot, end)
    ensures forall dot: nat, end: nat :: Formatted(versionInfo, dot, end) ==>
              version == Some(Pack(Value(versionInfo[7..dot]) % WORD, Value(versionInfo[dot + 1..end]) % WORD))
  {
    var high, dot := ReadMajor(versionInfo);
    if dot >= |versionInfo| {
      return None;
    }
    var low, end := ReadMinor(versionInfo, dot + 1);
    if end == |versionInfo| {
      return None;
    }
    assert Formatted(versionInfo, dot, end);
    forall dot': nat, end': nat | Formatted(versionInfo, dot', end')
      ensures dot' == dot && end' == end
    {
      FormatIsUnique(versionInfo, dot, end, dot', end');
    }
    version := Some(Pack(high, low));
  }

  // ---------------------------------------------------------------- what the result means

  /** What a platform of version `major.minor` reports. */
  function Report(major: nat, minor: nat, rest: string): string {
    "OpenCL " + Print(major) + "." + Print(minor) + " " + rest
  }

  lemma Middle(before: string, middle: string, after: string)
    ensures (before + middle + after)[|before|..|before| + |middle|] == middle
    ensures forall i :: |before| <= i < |before| + |middle| ==> (before + middle + after)[i] == middle[i - |before|]
  {
  }

  /** Digits in the middle of a string are neither a dot nor an end. */
  lemma DigitsBetween(before: string, digits: string, after: string)
    requires AllDigits(digits)
    ensures var s := before + digits + after;
            forall i :: |before| <= i < |before| + |digits| ==> s[i] != '.' && !Ends(s[i])
  {
    var s := before + digits + after;
    forall i | |before| <= i < |before| + |digits|
      ensures s[i] != '.' && !Ends(s[i])
    {
      assert s[i] == digits[i - |before|] && IsDigit(digits[i - |before|]);
    }
  }

  lemma MajorInReport(major: nat, minor: nat, rest: string)
    ensures var s, dot := Report(major, minor, rest), 7 + |Print(major)|;
            && dot < |s| && s[dot] == '.' && s[7..dot] == Print(major) && (forall i :: 7 <= i < dot ==> s[i] != '.')
  {
    var s := Report(major, minor, rest);
    var from := "." + Print(minor) + " " + rest;
    assert s == "OpenCL " + Print(major) + from;
    Middle("OpenCL ", Print(major), from);
    DigitsBetween("OpenCL ", Print(major), from);
  }

  lemma MinorInReport(major: nat, minor: nat, rest: string)
    ensures var s, dot := Report(major, minor, rest), 7 + |Print(major)|;
            var end := dot + 1 + |Print(minor)|;
            && end < |s| && Ends(s[end]) && s[dot + 1..end] == Print(minor)
            && (forall i :: dot < i < end ==> !Ends(s[i]))
  {
    var s := Report(major, minor, rest);
    var upTo := "OpenCL " + Print(major) + ".";
    assert s == upTo + Print(minor) + (" " + rest);
    Middle(upTo, Print(minor), " " + rest);
    DigitsBetween(upTo, Print(minor), " " + rest);
  }

  lemma ReportIsFormatted(major: nat, minor: nat, rest: string)
    ensures var s, dot := Report(major, minor, rest), 7 + |Print(major)|;
            var end := dot + 1 + |Print(minor)|;
            && Formatted(s, dot, end)
            && s[7..dot] == Print(major) && s[dot + 1..end] == Print(minor)
  {
    MajorInReport(major, minor, rest);
    MinorInReport(major, minor, rest);
  }

  lemma PowerOf16()
    ensures Power2(16) == 0x1_0000
  {
    assert Power2(2) == 4;
    assert Power2(4) == 16;
    assert Power2(6) == 64;
    assert Power2(8) == 256;
    assert Power2(10) == 1024;
    assert Power2(12) == 4096;
    assert Power2(14) == 16384;
  }

  lemma PowerOf32()
    ensures Power2(32) == WORD
  {
    PowerOf16();
    assert Power2(18) == 0x4_0000;
    assert Power2(20) == 0x10_0000;
    assert Power2(22) == 0x40_0000;
    assert Power2(24) == 0x100_0000;
    assert Power2(26) == 0x400_0000;
    assert Power2(28) == 0x1000_0000;
    assert Power2(30) == 0x4000_0000;
  }

  lemma {:induction false} ShiftBits(a: nat, n: nat, k: nat)
    ensures Bit(a * Power2(n), k) <==> k >= n && Bit(a, k - n)
  {
    if n > 0 {
      ShiftOnce(a, n);
      var x := a * Power2(n - 1);
      assert 2 * x / 2 == x && 2 * x % 2 == 0;
      if k > 0 {
        ShiftBits(a, n - 1, k - 1);
      }
    }
  }

  lemma AtLeastOnce(m: nat, d: int)
    requires d >= 1
    ensures m * d >= m
  {
  }

  lemma ModOfSum(q: nat, r: nat, m: nat)
    requires r < m
    ensures (m * q + r) % m == r
  {
    var x := m * q + r;
    var d, e := x / m, x % m;
    assert x == m * d + e && m * (d - q) == r - e && m * (q - d) == e - r;
    if d > q {
      AtLeastOnce(m, d - q);
    } else if d < q {
      AtLeastOnce(m, q - d);
    }
  }

  lemma HalfOfMod(a: nat, m: nat)
    requires m > 0
    ensures a % (2 * m) / 2 == a / 2 % m && a % (2 * m) % 2 == a % 2
  {
    var q, r := a / (2 * m), a % (2 * m);
    assert a == 2 * (m * q) + r;
    assert a / 2 == m * q + r / 2;
    assert (m * q + r / 2) % m == r / 2 by {
      assert 0 <= r / 2 < m;
      ModOfSum(q, r / 2, m);
    }
  }

  lemma {:induction false} ZeroBits(k: nat)
    ensures !Bit(0, k)
  {
    if k > 0 {
      ZeroBits(k - 1);
    }
  }

  lemma {:induction false} ModBits(a: nat, n: nat, k: nat)
    ensures Bit(a % Power2(n), k) <==> k < n && Bit(a, k)
  {
    if n == 0 {
      ZeroBits(k);
    } else {
      HalfOfMod(a, Power2(n - 1));
      if k > 0 {
        ModBits(a / 2, n - 1, k - 1);
      }
    }
  }

  /** The packed word bit by bit: the lower half is that of the minor number, the upper half is the lower half of
      the major number, into which the upper half of the minor number runs over. */
  lemma PackBits(high: nat, low: nat, k: nat)
    ensures Bit(Pack(high, low), k) <==> k < 32 && (Bit(low, k) || (k >= 16 && Bit(high, k - 16)))
  {
    PowerOf16();
    PowerOf32();
    OrBits(high * 0x10000 % WORD, low % WORD, k);
    ModBits(high * 0x10000, 32, k);
    ModBits(low, 32, k);
    ShiftBits(high, 16, k);
  }

  lemma PackExact(major: nat, minor: nat)
    requires major < 0x1_0000 && minor < 0x1_0000
    ensures Pack(major % WORD, minor % WORD) == major * 0x1_0000 + minor
  {
    PowerOf16();
    assert major % WORD == major && minor % WORD == minor;
    assert 0 <= major * 0x1_0000 < WORD;
    assert major * 0x1_0000 % WORD == major * 0x1_0000;
    OrOfShifted(major, minor, 16);
  }

  /** Round trip: what a platform of version `major.minor` reports is read back as that version, for
      every major and minor number that fits its 16 bits. */
  method ReadBack(major: nat, minor: nat, rest: string) returns (version: Option<int>)
    requires major < 0x1_0000 && minor < 0x1_0000
    ensures version == Some(major * 0x1_0000 + minor)
  {
    ReportIsFormatted(major, minor, rest);
    version := GetVersion(Report(major, minor, rest));
    ValueOfPrint(major);
    ValueOfPrint(minor);
    PackExact(major, minor);
  }

  /** The signed reading of a 32-bit word. */
  function ToSigned(w: int): int {
    if w < WORD / 2 then w else w - WORD
  }

  /** `isReferenceCountable`: the unsigned result is stored in a signed integer first. */
  predicate CountsDevices(version: int) {
    ToSigned(version) > 0x1_0000 + 1
  }

  /** The choice of clCreateImage over the 1.1 entry points, on the unsigned result. */
  predicate HasCreateImage(version: int) {
    version >= 0x1_0002
  }

  predicate AtLeast(major: nat, minor: nat, major': nat, minor': nat) {
    major > major' || (major == major' && minor >= minor')
  }

  /** Packed versions are ordered like versions, so both decisions mean "1.2 or later"; they agree on
      every platform whose major number is below 2^15 and on no other. */
  lemma DecisionsAgree(major: nat, minor: nat, major': nat, minor': nat)
    requires major < 0x1_0000 && minor < 0x1_0000 && major' < 0x1_0000 && minor' < 0x1_0000
    ensures var v, v' := major * 0x1_0000 + minor, major' * 0x1_0000 + minor';
            v >= v' <==> AtLeast(major, minor, major', minor')
    ensures var v := major * 0x1_0000 + minor;
            && (HasCreateImage(v) <==> AtLeast(major, minor, 1, 2))
            && (CountsDevices(v) <==> AtLeast(major, minor, 1, 2) && major < 0x8000)
            && ((CountsDevices(v) <==> HasCreateImage(v)) <==> major < 0x8000)
  {
  }
}
