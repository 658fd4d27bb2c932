/**
 * Decimal integer text as PHP reads it: intval() on a string, and the rule by
 * which a string array key that spells an integer becomes an integer key.
 */
module PhpNumbers {

  /** PHP_INT_MAX and PHP_INT_MIN on a 64-bit platform. */
  const IntMax: int := 0x7fff_ffff_ffff_ffff
  const IntMin: int := -0x8000_0000_0000_0000

  predicate IsDigit(c: char) {
    '0' <= c <= '9'
  }

  predicate AllDigits(s: string) {
    forall i :: 0 <= i < |s| ==> IsDigit(s[i])
  }

  /** The number a string of decimal digits denotes. */
  function DigitsValue(s: string): (n: nat)
    requires AllDigits(s)
  {
    if s == [] then 0 else DigitsValue(s[..|s| - 1]) * 10 + (s[|s| - 1] - '0') as int
  }

  /** The decimal digits of n, without leading zeros. */
  function Decimal(n: nat): (s: string)
    ensures |s| > 0 && AllDigits(s)
    ensures |s| > 1 ==> s[0] != '0'
  {
    if n < 10 then [('0' as int + n) as char] else Decimal(n / 10) + [('0' as int + n % 10) as char]
  }

  /** Reading back the digits of n gives n. */
  lemma {:induction false} DecimalRoundTrip(n: nat)
    ensures DigitsValue(Decimal(n)) == n
  {
    if n >= 10 {
      var s := Decimal(n);
      assert s[..|s| - 1] == Decimal(n / 10);
      DecimalRoundTrip(n / 10);
    }
  }

  /** The text PHP gives an integer: an optional '-' and the digits of its magnitude. */
  function IntText(n: int): string {
    if n < 0 then "-" + Decimal(-n) else Decimal(n)
  }

  /**
   * A string that PHP turns into an integer array key: "0", or an optional '-'
   * followed by a digit other than '0' and more digits ("-0" and "007" stay strings).
   */
  predicate IsCanonicalInt(s: string) {
    s == "0"
    || (|s| > 0 && '1' <= s[0] <= '9' && AllDigits(s))
    || (|s| > 1 && s[0] == '-' && '1' <= s[1] <= '9' && AllDigits(s[1..]))
  }

  function CanonicalValue(s: string): int
    requires IsCanonicalInt(s)
  {
    if s[0] == '-' then -(DigitsValue(s[1..]) as int) else DigitsValue(s)
  }

  /** The text of every integer is canonical and reads back as that integer. */
  lemma CanonicalRoundTrip(n: int)
    ensures IsCanonicalInt(IntText(n))
    ensures CanonicalValue(IntText(n)) == n
  {
    if n < 0 {
      CanonicalNegative(n);
    } else {
      CanonicalNatural(n);
    }
  }

  lemma CanonicalNegative(n: int)
    requires n < 0
    ensures IsCanonicalInt(IntText(n)) && CanonicalValue(IntText(n)) == n
  {
    var d := Decimal(-n);
    var s := "-" + d;
    assert s[0] == '-' && s[1..] == d;
    DecimalRoundTrip(-n);
    assert d != "0" by { DecimalRoundTrip(0); }
    assert '1' <= d[0] <= '9';
    assert IsCanonicalInt(s);
  }

  lemma CanonicalNatural(n: int)
    requires 0 <= n
    ensures IsCanonicalInt(IntText(n)) && CanonicalValue(IntText(n)) == n
  {
    var d := Decimal(n);
    DecimalRoundTrip(n);
    if n == 0 {
      assert d == "0";
    } else {
      assert d != "0" by { DecimalRoundTrip(0); }
      assert '1' <= d[0] <= '9';
    }
  }

  /** The longest prefix of s made of digits. */
  function LeadingDigits(s: string): (d: string)
    ensures AllDigits(d) && d <= s
    ensures |d| < |s| ==> !IsDigit(s[|d|])
  {
    if s != [] && IsDigit(s[0]) then [s[0]] + LeadingDigits(s[1..]) else []
  }

  predicate IsBlank(c: char) {
    c == ' ' || c == '\t' || c == '\n' || c == '\r' || c == '\U{B}' || c == '\U{C}'
  }

  function SkipBlanks(s: string): (r: string)
    ensures |r| <= |s| && r == s[|s| - |r|..]
    ensures r == [] || !IsBlank(r[0])
  {
    if s != [] && IsBlank(s[0]) then SkipBlanks(s[1..]) else s
  }

  function Clamp(n: int): (r: int)
    ensures IntMin <= r <= IntMax
    ensures IntMin <= n <= IntMax ==> r == n
  {
    if n < IntMin then IntMin else if n > IntMax then IntMax else n
  }

  /**
   * intval() of a string: leading blanks, an optional sign and the digits that
   * follow; anything after them is ignored, and out-of-range values saturate.
   */
  function StringToInt(s: string): (n: int)
    ensures IntMin <= n <= IntMax
  {
    var t := SkipBlanks(s);
    if t != [] && t[0] == '-' then Clamp(-(DigitsValue(LeadingDigits(t[1..])) as int))
    else if t != [] && t[0] == '+' then Clamp(DigitsValue(LeadingDigits(t[1..])))
    else Clamp(DigitsValue(LeadingDigits(t)))
  }

  /** intval() reads back every 64-bit integer from its text. */
  lemma StringToIntRoundTrip(n: int)
    requires IntMin <= n <= IntMax
    ensures StringToInt(IntText(n)) == n
  {
    if n < 0 {
      NegativeRoundTrip(n);
    } else {
      NaturalRoundTrip(n);
    }
  }

  lemma NegativeRoundTrip(n: int)
    requires IntMin <= n < 0
    ensures StringToInt(IntText(n)) == n
  {
    var d := Decimal(-n);
    var s := "-" + d;
    assert s[0] == '-' && s[1..] == d;
    assert !IsBlank(s[0]);
    assert SkipBlanks(s) == s;
    LeadingAllDigits(d);
    DecimalRoundTrip(-n);
    assert DigitsValue(LeadingDigits(s[1..])) == -n;
  }

  lemma NaturalRoundTrip(n: int)
    requires 0 <= n <= IntMax
    ensures StringToInt(IntText(n)) == n
  {
    var d := Decimal(n);
    assert IsDigit(d[0]) && !IsBlank(d[0]);
    assert SkipBlanks(d) == d;
    LeadingAllDigits(d);
    DecimalRoundTrip(n);
    assert DigitsValue(LeadingDigits(d)) == n;
  }

  lemma {:induction false} LeadingAllDigits(s: string)
    requires AllDigits(s)
    ensures LeadingDigits(s) == s
  {
    if s != [] {
      LeadingAllDigits(s[1..]);
    }
  }
}
