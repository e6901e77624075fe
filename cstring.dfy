/**
 * The pieces of the C library that the drivers lean on for parsing and formatting:
 * strtol and atoi in base 10, strcasecmp on ASCII text, printf's "%02d", and the
 * conversions between a 64-bit long and a 32-bit int. A C string is the sequence of
 * characters before its terminating NUL.
 */
module CString {

  const LONG_MIN: int := -0x8000_0000_0000_0000
  const LONG_MAX: int := 0x7fff_ffff_ffff_ffff

  /** isspace in the "C" locale. */
  predicate IsSpace(c: char) {
    c == ' ' || c == '\t' || c == '\n' || c == '\U{0b}' || c == '\U{0c}' || c == '\r'
  }

  predicate IsDigit(c: char) {
    '0' <= c <= '9'
  }

  predicate IsSign(c: char) {
    c == '+' || c == '-'
  }

  predicate AllDigits(s: seq<char>) {
    forall i :: 0 <= i < |s| ==> IsDigit(s[i])
  }

  predicate AllSpaces(s: seq<char>) {
    forall i :: 0 <= i < |s| ==> IsSpace(s[i])
  }

  function DigitValue(c: char): nat
    requires IsDigit(c)
  {
    (c as int) - ('0' as int)
  }

  /** The number a run of decimal digits denotes, most significant digit first. */
  function DigitsValue(ds: seq<char>): nat
    requires AllDigits(ds)
  {
    if |ds| == 0 then 0 else 10 * DigitsValue(ds[..|ds| - 1]) + DigitValue(ds[|ds| - 1])
  }

  /** The first index at or after i that does not hold white space. */
  function SkipSpaces(s: seq<char>, i: nat): (k: nat)
    requires i <= |s|
    ensures i <= k <= |s|
    ensures AllSpaces(s[i..k])
    ensures k < |s| ==> !IsSpace(s[k])
    decreases |s| - i
  {
    if i < |s| && IsSpace(s[i]) then SkipSpaces(s, i + 1) else i
  }

  /** The end of the run of digits that starts at i. */
  function DigitRun(s: seq<char>, i: nat): (k: nat)
    requires i <= |s|
    ensures i <= k <= |s|
    ensures AllDigits(s[i..k])
    ensures k < |s| ==> !IsDigit(s[k])
    decreases |s| - i
  {
    if i < |s| && IsDigit(s[i]) then DigitRun(s, i + 1) else i
  }

  /** strtol saturates a value that does not fit a 64-bit long. */
  function ClampLong(v: int): int {
    if v < LONG_MIN then LONG_MIN else if v > LONG_MAX then LONG_MAX else v
  }

  /** The conversion of a long to a 32-bit int: two's-complement truncation, as gcc does it. */
  function ToInt32(v: int): (r: int)
    ensures -0x8000_0000 <= r < 0x8000_0000
    ensures (r - v) % 0x1_0000_0000 == 0
    ensures -0x8000_0000 <= v < 0x8000_0000 ==> r == v
  {
    (v + 0x8000_0000) % 0x1_0000_0000 - 0x8000_0000
  }

  /** What strtol(s, &end, 10) returns and how far end points into s. */
  datatype Parsed = Parsed(value: int, end: nat)

  /**
   * strtol in base 10: optional white space, an optional sign and at least one digit;
   * when no digit follows, nothing is converted, the value is 0 and end points at the
   * start of the string.
   */
  function Strtol(s: seq<char>): (p: Parsed)
    ensures p.end <= |s|
    ensures LONG_MIN <= p.value <= LONG_MAX
  {
    var i := SkipSpaces(s, 0);
    var j := if i < |s| && IsSign(s[i]) then i + 1 else i;
    var k := DigitRun(s, j);
    if k == j then Parsed(0, 0)
    else
      var magnitude: int := DigitsValue(s[j..k]);
      Parsed(ClampLong(if i < j && s[i] == '-' then -magnitude else magnitude), k)
  }

  /** glibc's atoi is (int) strtol(s, NULL, 10). */
  function Atoi(s: seq<char>): (n: int)
    ensures -0x8000_0000 <= n < 0x8000_0000
    ensures -0x8000_0000 <= Strtol(s).value < 0x8000_0000 ==> n == Strtol(s).value
  {
    ToInt32(Strtol(s).value)
  }

  /**
   * The text of an integer as strtol reads it in full: white space, at most one sign,
   * and a non-empty run of digits that reaches the end of the string.
   */
  ghost predicate IsIntegerText(s: seq<char>) {
    exists a: nat, b: nat ::
      a <= b < |s| && b - a <= 1 &&
      AllSpaces(s[..a]) && (b == a + 1 ==> IsSign(s[a])) && AllDigits(s[b..])
  }

  /**
   * strtol consumes the whole string exactly when the string is an integer's text, or
   * when it is empty (nothing is converted and end already points at the NUL).
   */
  lemma StrtolWholeIff(s: seq<char>)
    ensures Strtol(s).end == |s| <==> (|s| == 0 || IsIntegerText(s))
  {
    if Strtol(s).end == |s| && |s| > 0 {
      WholeIsText(s);
    }
    if IsIntegerText(s) {
      TextIsWhole(s);
    }
  }

  lemma WholeIsText(s: seq<char>)
    requires |s| > 0 && Strtol(s).end == |s|
    ensures IsIntegerText(s)
  {
    var i := SkipSpaces(s, 0);
    var j := if i < |s| && IsSign(s[i]) then i + 1 else i;
    var k := DigitRun(s, j);
    assert k == |s| && j < k;
    assert s[..i] == s[0..i];
    assert s[j..] == s[j..k];
    assert i <= j < |s| && j - i <= 1 && AllSpaces(s[..i]) && (j == i + 1 ==> IsSign(s[i])) && AllDigits(s[j..]);
  }

  lemma TextIsWhole(s: seq<char>)
    requires IsIntegerText(s)
    ensures Strtol(s).end == |s|
  {
    var a: nat, b: nat :| a <= b < |s| && b - a <= 1 &&
      AllSpaces(s[..a]) && (b == a + 1 ==> IsSign(s[a])) && AllDigits(s[b..]);
    assert IsDigit(s[b]) by { assert s[b..][0] == s[b]; }
    SkipSpacesPast(s, a);
    var j := if a < |s| && IsSign(s[a]) then a + 1 else a;
    assert j == b;
    DigitRunToEnd(s, b);
  }

  /** Scanning white space from the start stops at a, when s[..a] is white space and s[a] is not. */
  lemma SkipSpacesPast(s: seq<char>, a: nat)
    requires a < |s| && AllSpaces(s[..a]) && !IsSpace(s[a])
    ensures SkipSpaces(s, 0) == a
  {
    var i := 0;
    while i < a
      invariant 0 <= i <= a
      invariant SkipSpaces(s, i) == SkipSpaces(s, 0)
    {
      assert s[..a][i] == s[i];
      i := i + 1;
    }
  }

  lemma DigitRunToEnd(s: seq<char>, b: nat)
    requires b <= |s| && AllDigits(s[b..])
    ensures DigitRun(s, b) == |s|
    decreases |s| - b
  {
    if b < |s| {
      assert s[b..][0] == s[b];
      assert s[b + 1..] == s[b..][1..];
      DigitRunToEnd(s, b + 1);
    }
  }

  /** strtol reads the whole of a run of digits, and its value. */
  lemma StrtolOfDigits(s: seq<char>)
    requires |s| > 0 && AllDigits(s)
    ensures Strtol(s) == Parsed(ClampLong(DigitsValue(s)), |s|)
  {
    assert IsDigit(s[0]);
    assert AllSpaces(s[..0]);
    SkipSpacesPast(s, 0);
    DigitRunToEnd(s, 0);
    assert s[0..|s|] == s;
  }

  /** strtol reads the whole of a minus sign followed by digits, and their negated value. */
  lemma StrtolOfNegatedDigits(s: seq<char>)
    requires |s| > 1 && s[0] == '-' && AllDigits(s[1..])
    ensures Strtol(s) == Parsed(ClampLong(-(DigitsValue(s[1..]) as int)), |s|)
  {
    assert AllSpaces(s[..0]);
    SkipSpacesPast(s, 0);
    DigitRunToEnd(s, 1);
    assert s[1..|s|] == s[1..];
  }

  /** The digit character of 0 <= d < 10. */
  function DigitChar(d: nat): (c: char)
    requires d < 10
    ensures IsDigit(c) && DigitValue(c) == d
  {
    (('0' as int) + d) as char
  }

  /** The decimal text of n, without leading zeros ("0" for zero). */
  function Decimal(n: nat): (s: seq<char>)
    ensures |s| >= 1 && AllDigits(s)
    ensures |s| == 1 <==> n < 10
    decreases n
  {
    if n < 10 then [DigitChar(n)] else Decimal(n / 10) + [DigitChar(n % 10)]
  }

  /** Reading back the decimal text of n gives n. */
  lemma {:induction false} DecimalRoundTrip(n: nat)
    ensures DigitsValue(Decimal(n)) == n
    decreases n
  {
    if n >= 10 {
      var s := Decimal(n);
      assert s[..|s| - 1] == Decimal(n / 10);
      DecimalRoundTrip(n / 10);
    }
  }

  /** strtol reads the decimal text of n in full, and reads back n (saturated to a long). */
  lemma StrtolOfDecimal(n: nat)
    ensures Strtol(Decimal(n)) == Parsed(ClampLong(n), |Decimal(n)|)
  {
    DecimalRoundTrip(n);
    StrtolOfDigits(Decimal(n));
  }

  /** strtol reads "-" and the decimal text of n in full, and reads back -n (saturated to a long). */
  lemma StrtolOfNegatedDecimal(n: nat)
    ensures Strtol(['-'] + Decimal(n)) == Parsed(ClampLong(-(n as int)), 1 + |Decimal(n)|)
  {
    var s := ['-'] + Decimal(n);
    assert s[1..] == Decimal(n);
    DecimalRoundTrip(n);
    StrtolOfNegatedDigits(s);
  }

  /** printf's "%02d": at least two characters, zero-padded, with a leading '-' for negatives. */
  function Pad2(n: int): (s: seq<char>)
    ensures |s| >= 2
    ensures n < 0 <==> s[0] == '-'
    ensures n >= 0 ==> AllDigits(s)
  {
    if n < 0 then ['-'] + Decimal(-n)
    else if n < 10 then ['0'] + Decimal(n)
    else Decimal(n)
  }

  /** For 0 <= n < 100, "%02d" gives exactly two digits that read back as n. */
  lemma Pad2TwoDigits(n: int)
    requires 0 <= n < 100
    ensures |Pad2(n)| == 2 && AllDigits(Pad2(n)) && DigitsValue(Pad2(n)) == n
  {
    DecimalRoundTrip(n);
    if n < 10 {
      var s := Pad2(n);
      assert s[..1] == ['0'];
    } else {
      assert |Decimal(n / 10)| == 1;
    }
  }

  /** tolower on ASCII letters; every other character is left alone. */
  function ToLowerAscii(c: char): char {
    if 'A' <= c <= 'Z' then ((c as int) + 32) as char else c
  }

  /** strcasecmp(a, b) == 0: equal lengths and equal characters after ASCII case folding. */
  predicate EqualsIgnoreCase(a: seq<char>, b: seq<char>) {
    |a| == |b| && forall i :: 0 <= i < |a| ==> ToLowerAscii(a[i]) == ToLowerAscii(b[i])
  }

  /** Equality up to ASCII case is an equivalence: reflexive, symmetric and transitive. */
  lemma EqualsIgnoreCaseEquivalence(a: seq<char>, b: seq<char>, c: seq<char>)
    ensures EqualsIgnoreCase(a, a)
    ensures EqualsIgnoreCase(a, b) ==> EqualsIgnoreCase(b, a)
    ensures EqualsIgnoreCase(a, b) && EqualsIgnoreCase(b, c) ==> EqualsIgnoreCase(a, c)
  {
  }

  /**
   * The C remainder '%', which truncates toward zero (Dafny's '%' is Euclidean and
   * never negative).
   */
  function CRem(a: int, b: int): (r: int)
    requires b > 0
    // C's identity (a / b) * b + a % b == a, with r smaller than b in size and of a's sign
    ensures a == b * CQuot(a, b) + r && -b < r < b
    ensures a >= 0 ==> r >= 0
    ensures a < 0 ==> r <= 0
  {
    if a >= 0 then a % b
    else
      var q := (-a) / b;
      assert -a == b * q + (-a) % b;
      assert b * CQuot(a, b) == -(b * q);
      -((-a) % b)
  }

  /** The C quotient '/', which truncates toward zero. */
  function CQuot(a: int, b: int): int
    requires b > 0
  {
    if a >= 0 then a / b else -((-a) / b)
  }
}
