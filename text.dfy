/**
 * How PHP renders the numbers and dates that go into cache keys:
 * decimal integers (string interpolation of an int), zero padding and
 * Carbon's `toDateString()` ("Y-m-d"). The lemmas show that these
 * renderings are injective, which is what keeps cache keys apart.
 */
module Text {
  import opened Calendar

  predicate IsDigit(c: char) {
    '0' <= c <= '9'
  }

  predicate AllDigits(s: string) {
    forall i | 0 <= i < |s| :: IsDigit(s[i])
  }

  /** No character of s is the separator '_' used inside cache keys. */
  predicate NoUnderscore(s: string) {
    forall i | 0 <= i < |s| :: s[i] != '_'
  }

  function DigitChar(d: nat): (c: char)
    requires d < 10
    ensures IsDigit(c)
  {
    (48 + d) as char
  }

  function DigitValue(c: char): (d: nat)
    requires IsDigit(c)
    ensures d < 10
  {
    c as int - 48
  }

  /** The number a string of decimal digits denotes, most significant digit first. */
  function DigitsValue(s: string): nat
    requires AllDigits(s)
  {
    if s == [] then 0 else DigitsValue(s[..|s| - 1]) * 10 + DigitValue(s[|s| - 1])
  }

  /** Decimal rendering of a natural number, without leading zeros. */
  function NatToString(n: nat): (s: string)
    ensures 1 <= |s| && AllDigits(s)
    ensures DigitsValue(s) == n
    ensures n < 10 <==> |s| == 1
  {
    if n < 10 then [DigitChar(n)]
    else
      var s := NatToString(n / 10) + [DigitChar(n % 10)];
      assert s[..|s| - 1] == NatToString(n / 10);
      s
  }

  /** PHP's rendering of an int: a '-' sign for negatives, then the digits of the magnitude. */
  function IntToString(i: int): (s: string)
    ensures 1 <= |s| && NoUnderscore(s)
    ensures i < 0 ==> s[0] == '-' && AllDigits(s[1..]) && DigitsValue(s[1..]) == -i
    ensures i >= 0 ==> AllDigits(s) && DigitsValue(s) == i
  {
    if i < 0 then "-" + NatToString(-i) else NatToString(i)
  }

  lemma IntToStringInjective(a: int, b: int)
    requires IntToString(a) == IntToString(b)
    ensures a == b
  {
  }

  lemma {:induction false} LeadingZero(s: string)
    requires AllDigits(s)
    ensures AllDigits("0" + s) && DigitsValue("0" + s) == DigitsValue(s)
  {
    if s != [] {
      var t := s[..|s| - 1];
      LeadingZero(t);
      assert ("0" + s)[..|s|] == "0" + t;
    }
  }

  /** s left-padded with '0' up to width w (PHP's `str_pad(..., STR_PAD_LEFT)`). */
  function PadZeros(s: string, w: nat): (r: string)
    requires AllDigits(s)
    ensures AllDigits(r) && DigitsValue(r) == DigitsValue(s)
    ensures |r| == if |s| < w then w else |s|
    decreases w - |s|
  {
    if |s| >= w then s
    else
      LeadingZero(s);
      PadZeros("0" + s, w)
  }

  /** Two-digit, zero-padded rendering ("m" and "d" in a date format). */
  function TwoDigits(n: nat): (s: string)
    requires n < 100
    ensures |s| == 2 && AllDigits(s) && DigitsValue(s) == n
  {
    var s := [DigitChar(n / 10), DigitChar(n % 10)];
    assert s[..1] == [DigitChar(n / 10)];
    assert s[..1][..0] == [];
    assert DigitsValue(s[..1]) == n / 10;
    s
  }

  /** The year as "Y" renders it: at least four digits, '-' before years BCE. */
  function YearText(y: int): (s: string)
    ensures 4 <= |s|
    ensures y < 0 ==> s[0] == '-' && AllDigits(s[1..]) && DigitsValue(s[1..]) == -y
    ensures y >= 0 ==> AllDigits(s) && DigitsValue(s) == y
  {
    if y < 0 then "-" + PadZeros(NatToString(-y), 4) else PadZeros(NatToString(y), 4)
  }

  lemma YearTextInjective(a: int, b: int)
    requires YearText(a) == YearText(b)
    ensures a == b
  {
  }

  /** Carbon's `toDateString()`: "Y-m-d". */
  function DateString(d: Date): (s: string)
    requires ValidDate(d)
    ensures |s| >= 10
  {
    YearText(d.year) + "-" + TwoDigits(d.month) + "-" + TwoDigits(d.day)
  }

  /** Where the year, the month and the day sit in a date string. */
  lemma DateStringParts(d: Date)
    requires ValidDate(d)
    ensures var s := DateString(d);
      && s[..|s| - 6] == YearText(d.year)
      && s[|s| - 5..|s| - 3] == TwoDigits(d.month)
      && s[|s| - 2..] == TwoDigits(d.day)
  {
  }

  /** Distinct dates never share a date string. */
  lemma DateStringInjective(a: Date, b: Date)
    requires ValidDate(a) && ValidDate(b)
    requires DateString(a) == DateString(b)
    ensures a == b
  {
    DateStringParts(a);
    DateStringParts(b);
    assert YearText(a.year) == YearText(b.year);
    YearTextInjective(a.year, b.year);
    assert DigitsValue(TwoDigits(a.month)) == DigitsValue(TwoDigits(b.month));
    assert DigitsValue(TwoDigits(a.day)) == DigitsValue(TwoDigits(b.day));
  }

  /** A date string has no '_', a '-' before the day and a digit at the end. */
  lemma DateStringShape(d: Date)
    requires ValidDate(d)
    ensures var s := DateString(d);
      NoUnderscore(s) && s[|s| - 3] == '-' && IsDigit(s[|s| - 1])
  {
    var y := YearText(d.year);
    assert NoUnderscore(y) by {
      forall i | 0 <= i < |y| ensures y[i] != '_' {
        if d.year < 0 && i > 0 {
          assert y[i] == y[1..][i - 1];
        }
      }
    }
  }

  /** A common prefix can be cancelled. */
  lemma PrefixCancel(p: string, a: string, b: string)
    requires p + a == p + b
    ensures a == b
  {
    assert a == (p + a)[|p|..];
    assert b == (p + b)[|p|..];
  }

  lemma CharBeforeUnderscore(a: string, b: string, i: nat)
    requires i < |a|
    ensures (a + "_" + b)[i] == a[i]
  {
  }

  /** "a_b" splits back into a and b when neither contains '_'. */
  lemma {:induction false} UnderscoreSplit(a1: string, b1: string, a2: string, b2: string)
    requires NoUnderscore(a1) && NoUnderscore(a2)
    requires a1 + "_" + b1 == a2 + "_" + b2
    ensures a1 == a2 && b1 == b2
  {
    var s := a1 + "_" + b1;
    if |a1| < |a2| {
      CharBeforeUnderscore(a2, b2, |a1|);
      assert false;
    } else if |a2| < |a1| {
      CharBeforeUnderscore(a1, b1, |a2|);
      assert false;
    } else {
      assert a1 == s[..|a1|] == a2;
      assert b1 == s[|a1| + 1..] == b2;
    }
  }

  /** "{year}_{month}" as the widgets interpolate it. */
  function YearMonthText(ym: YearMonth): string {
    IntToString(ym.year) + "_" + IntToString(ym.month)
  }

  lemma YearMonthTextInjective(a: YearMonth, b: YearMonth)
    requires YearMonthText(a) == YearMonthText(b)
    ensures a == b
  {
    UnderscoreSplit(IntToString(a.year), IntToString(a.month), IntToString(b.year), IntToString(b.month));
    IntToStringInjective(a.year, b.year);
    IntToStringInjective(a.month, b.month);
  }
}
