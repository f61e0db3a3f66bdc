/**
 * The ISO 8601 calendar-date text `YYYY-MM-DD`: `date.isoformat()` and
 * `date.fromisoformat()` as Python 3.7 to 3.10 define them.
 */
module IsoDates {
  import opened Wrappers
  import opened Calendar

  /** Python's `date.min.year` and `date.max.year`. */
  const MinYear := 1
  const MaxYear := 9999

  /** A date Python's `date` type can hold. */
  predicate InRange(d: Date) {
    Valid(d) && MinYear <= d.year <= MaxYear
  }

  function DigitChar(n: int): (c: char)
    requires 0 <= n < 10
    ensures '0' <= c <= '9'
  {
    '0' + n as char
  }

  predicate IsDigit(c: char) {
    '0' <= c <= '9'
  }

  function DigitValue(c: char): (n: int)
    requires IsDigit(c)
    ensures 0 <= n < 10
  {
    (c - '0') as int
  }

  /** `n` written with exactly `2` decimal digits, zero-padded. */
  function Pad2(n: int): (s: string)
    requires 0 <= n < 100
    ensures |s| == 2
  {
    [DigitChar(n / 10), DigitChar(n % 10)]
  }

  /** `n` written with exactly `4` decimal digits, zero-padded. */
  function Pad4(n: int): (s: string)
    requires 0 <= n < 10000
    ensures |s| == 4
  {
    [DigitChar(n / 1000), DigitChar(n / 100 % 10), DigitChar(n / 10 % 10), DigitChar(n % 10)]
  }

  /** `d.isoformat()`. */
  function Format(d: Date): (s: string)
    requires InRange(d)
    ensures |s| == 10 && '/' !in s
  {
    Pad4(d.year) + "-" + Pad2(d.month) + "-" + Pad2(d.day)
  }

  /** The value of the decimal digits `s[i..j]`; `None` if one of them is not a digit. */
  function Digits(s: string, i: nat, j: nat): Option<int>
    requires i <= j <= |s|
    decreases j - i
  {
    if i == j then Some(0)
    else if !IsDigit(s[j - 1]) then None
    else match Digits(s, i, j - 1)
      case None => None
      case Some(v) => Some(v * 10 + DigitValue(s[j - 1]))
  }

  /**
   * `date.fromisoformat(s)`: exactly ten characters `YYYY-MM-DD` naming an
   * existing date in years 1 to 9999; anything else raises `ValueError`
   * (`None` here).
   */
  function Parse(s: string): (r: Option<Date>)
    ensures r.Some? ==> InRange(r.value)
  {
    if |s| != 10 || s[4] != '-' || s[7] != '-' then None
    else
      match (Digits(s, 0, 4), Digits(s, 5, 7), Digits(s, 8, 10))
      case (Some(y), Some(m), Some(d)) =>
        var date := Date(y, m, d);
        if InRange(date) then Some(date) else None
      case _ => None
  }

  lemma DigitRoundTrip(n: int)
    requires 0 <= n < 10
    ensures IsDigit(DigitChar(n)) && DigitValue(DigitChar(n)) == n
  {
  }

  lemma Pad2Digits(n: int, s: string, i: nat)
    requires 0 <= n < 100
    requires i + 2 <= |s| && s[i..i + 2] == Pad2(n)
    ensures Digits(s, i, i + 2) == Some(n)
  {
    assert s[i] == DigitChar(n / 10) && s[i + 1] == DigitChar(n % 10);
    DigitRoundTrip(n / 10);
    DigitRoundTrip(n % 10);
    assert Digits(s, i, i) == Some(0);
  }

  lemma Pad4Digits(n: int, s: string)
    requires 0 <= n < 10000
    requires 4 <= |s| && s[..4] == Pad4(n)
    ensures Digits(s, 0, 4) == Some(n)
  {
    assert s[0] == DigitChar(n / 1000) && s[1] == DigitChar(n / 100 % 10);
    assert s[2] == DigitChar(n / 10 % 10) && s[3] == DigitChar(n % 10);
    DigitRoundTrip(n / 1000);
    DigitRoundTrip(n / 100 % 10);
    DigitRoundTrip(n / 10 % 10);
    DigitRoundTrip(n % 10);
    assert Digits(s, 0, 0) == Some(0);
    assert Digits(s, 0, 1) == Some(n / 1000);
    assert Digits(s, 0, 2) == Some(n / 100);
    assert Digits(s, 0, 3) == Some(n / 10);
  }

  /** `date.fromisoformat(d.isoformat()) == d` for every date Python can hold. */
  lemma ParseFormat(d: Date)
    requires InRange(d)
    ensures Parse(Format(d)) == Some(d)
  {
    var s := Format(d);
    assert s[..4] == Pad4(d.year);
    assert s[5..7] == Pad2(d.month);
    assert s[8..10] == Pad2(d.day);
    Pad4Digits(d.year, s);
    Pad2Digits(d.month, s, 5);
    Pad2Digits(d.day, s, 8);
  }

  /** Distinct dates have distinct ISO texts. */
  lemma FormatInjective(a: Date, b: Date)
    requires InRange(a) && InRange(b)
    requires Format(a) == Format(b)
    ensures a == b
  {
    ParseFormat(a);
    ParseFormat(b);
  }
}
