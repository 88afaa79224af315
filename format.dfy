/** The countdown text: format_time (code.py:119-122) and an independent
    parser for the "MM:SS" text it produces, which serves as its inverse. */
module Format {

  datatype Option<T> = None | Some(value: T)

  predicate IsDigit(c: char) {
    '0' <= c <= '9'
  }

  function Digit(d: int): (c: char)
    requires 0 <= d < 10
    ensures IsDigit(c)
  {
    "0123456789"[d]
  }

  function DigitValue(c: char): int {
    c as int - '0' as int
  }

  lemma DigitValueOfDigit(d: int)
    requires 0 <= d < 10
    ensures DigitValue(Digit(d)) == d
  {
  }

  /** Decimal numeral of n without leading zeros, as Python's str(n). */
  function Decimal(n: nat): (s: string)
    ensures 1 <= |s|
    ensures forall i :: 0 <= i < |s| ==> IsDigit(s[i])
    ensures n < 10 <==> |s| == 1
  {
    if n < 10 then [Digit(n)] else Decimal(n / 10) + [Digit(n % 10)]
  }

  /** Value of a string of decimal digits, most significant first. */
  function ParseDecimal(s: string): int {
    if s == [] then 0 else ParseDecimal(s[..|s| - 1]) * 10 + DigitValue(s[|s| - 1])
  }

  lemma {:induction false} DecimalRoundTrip(n: nat)
    ensures ParseDecimal(Decimal(n)) == n
  {
    if n >= 10 {
      var s := Decimal(n);
      assert s[..|s| - 1] == Decimal(n / 10);
      DecimalRoundTrip(n / 10);
    }
  }

  /** Python's f"{n:02}": zero-padded to width two, the sign counted in the width. */
  function Pad2(n: int): (s: string)
    ensures 2 <= |s|
    ensures n < 0 <==> s[0] == '-'
  {
    if n < 0 then "-" + Decimal(-n)
    else if n < 10 then "0" + Decimal(n)
    else Decimal(n)
  }

  lemma Pad2Digits(n: int)
    requires 0 <= n < 100
    ensures Pad2(n) == [Digit(n / 10), Digit(n % 10)]
  {
    if n >= 10 {
      assert Decimal(n / 10) == [Digit(n / 10)];
    }
  }

  /** format_time: minutes and seconds by floor division and floor remainder by
      60 (Dafny's / and % agree with Python's // and % for a positive divisor). */
  function FormatTime(seconds: int): (t: string)
    ensures 5 <= |t|
    ensures 0 <= seconds < 6000 ==> |t| == 5 && t[2] == ':'
    ensures seconds < 0 ==> t[0] == '-'
  {
    Pad2(seconds / 60) + ":" + Pad2(seconds % 60)
  }

  /** Reads back a "MM:SS" text with two digits on each side and fewer than 60 seconds. */
  function ParseTime(t: string): (r: Option<int>)
    ensures r.Some? ==> 0 <= r.value < 6000
  {
    if |t| == 5 && IsDigit(t[0]) && IsDigit(t[1]) && t[2] == ':' && IsDigit(t[3]) && IsDigit(t[4])
       && DigitValue(t[3]) < 6
    then Some((DigitValue(t[0]) * 10 + DigitValue(t[1])) * 60 + DigitValue(t[3]) * 10 + DigitValue(t[4]))
    else None
  }

  /** Every count below 100 minutes formats as "MM:SS" and parses back to itself. */
  lemma FormatTimeRoundTrip(seconds: int)
    requires 0 <= seconds < 6000
    ensures ParseTime(FormatTime(seconds)) == Some(seconds)
  {
    var m, s := seconds / 60, seconds % 60;
    Pad2Digits(m);
    Pad2Digits(s);
    var t := FormatTime(seconds);
    assert t == [Digit(m / 10), Digit(m % 10), ':', Digit(s / 10), Digit(s % 10)];
    TwoDigitsValue(m);
    TwoDigitsValue(s);
    assert s / 10 < 6;
    DigitValueOfDigit(s / 10);
  }

  /** Every well-formed "MM:SS" text is exactly what format_time prints for its value. */
  lemma ParseTimeRoundTrip(t: string)
    requires ParseTime(t).Some?
    ensures FormatTime(ParseTime(t).value) == t
  {
    var x := ParseTime(t).value;
    var d0, d1, d3, d4 := DigitValue(t[0]), DigitValue(t[1]), DigitValue(t[3]), DigitValue(t[4]);
    var mm, ss := d0 * 10 + d1, d3 * 10 + d4;
    assert x == mm * 60 + ss && 0 <= ss < 60;
    assert x / 60 == mm && x % 60 == ss;
    assert mm / 10 == d0 && mm % 10 == d1;
    assert ss / 10 == d3 && ss % 10 == d4;
    Pad2Digits(mm);
    Pad2Digits(ss);
    DigitOfValue(t[0]);
    DigitOfValue(t[1]);
    DigitOfValue(t[3]);
    DigitOfValue(t[4]);
  }

  lemma TwoDigitsValue(n: int)
    requires 0 <= n < 100
    ensures DigitValue(Digit(n / 10)) * 10 + DigitValue(Digit(n % 10)) == n
  {
    DigitValueOfDigit(n / 10);
    DigitValueOfDigit(n % 10);
  }

  lemma DigitOfValue(c: char)
    requires IsDigit(c)
    ensures Digit(DigitValue(c)) == c
  {
  }

  lemma FormatTimeExamples()
    ensures FormatTime(0) == "00:00"
    ensures FormatTime(125) == "02:05"
    ensures FormatTime(3599) == "59:59"
    ensures FormatTime(-5) == "-1:55"
  {
    Pad2Digits(0);
    Pad2Digits(2);
    Pad2Digits(5);
    Pad2Digits(59);
    Pad2Digits(55);
  }
}
