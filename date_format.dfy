/**
 * `getTodayDateString`: the local calendar date as `YYYY-MM-DD`. The clock is
 * not modelled; the year, the zero-based month index and the day of the month
 * that `Date` would report are parameters.
 */
module DateFormat {

  predicate IsDigit(c: char) {
    '0' <= c <= '9'
  }

  predicate IsDigits(s: string) {
    forall i :: 0 <= i < |s| ==> IsDigit(s[i])
  }

  /** The character of a decimal digit. */
  function DigitChar(d: nat): (c: char)
    requires d < 10
    ensures IsDigit(c) && c as int - '0' as int == d
  {
    ('0' as int + d) as char
  }

  /** `String(n)` for a non-negative integer: its decimal digits without leading zeros. */
  function Digits(n: nat): (s: string)
    ensures s != [] && IsDigits(s)
    ensures |s| > 1 ==> s[0] != '0'
    ensures n < 10 <==> |s| == 1
  {
    if n < 10 then [DigitChar(n)] else Digits(n / 10) + [DigitChar(n % 10)]
  }

  /** The number a run of decimal digits denotes: the inverse of `Digits`. */
  function DigitsValue(s: string): nat
    requires IsDigits(s)
  {
    if s == [] then 0 else 10 * DigitsValue(s[..|s| - 1]) + (s[|s| - 1] as int - '0' as int)
  }

  lemma {:induction false} DigitsRoundTrip(n: nat)
    ensures DigitsValue(Digits(n)) == n
  {
    if n >= 10 {
      var s := Digits(n);
      assert s[..|s| - 1] == Digits(n / 10);
      DigitsRoundTrip(n / 10);
    }
  }

  /** `String(i)` for any integer: a minus sign before the digits of a negative one. */
  function IntToString(i: int): (s: string)
    ensures s != []
    ensures i < 0 <==> s[0] == '-'
  {
    if i < 0 then "-" + Digits(-i) else Digits(i)
  }

  predicate IsIntText(s: string) {
    if s != [] && s[0] == '-' then IsDigits(s[1..]) else IsDigits(s)
  }

  /** The integer a decimal text denotes: the inverse of `IntToString`. */
  function IntValue(s: string): int
    requires IsIntText(s)
  {
    if s != [] && s[0] == '-' then -(DigitsValue(s[1..]) as int) else DigitsValue(s)
  }

  lemma IntRoundTrip(i: int)
    ensures IsIntText(IntToString(i)) && IntValue(IntToString(i)) == i
  {
    var s := IntToString(i);
    if i < 0 {
      assert s[1..] == Digits(-i);
      DigitsRoundTrip(-i);
    } else {
      DigitsRoundTrip(i);
    }
  }

  /** `f` is a run of decimal digits denoting `n`. */
  predicate Reads(f: string, n: int) {
    IsDigits(f) && DigitsValue(f) == n
  }

  /** `n` copies of `c`. */
  function Repeat(c: char, n: nat): (r: string)
    ensures |r| == n
    ensures forall i :: 0 <= i < n ==> r[i] == c
  {
    if n == 0 then [] else [c] + Repeat(c, n - 1)
  }

  /** `s.padStart(target, fill)` with a one-character fill: pads on the left up to `target`. */
  function PadStart(s: string, target: nat, fill: char): (r: string)
    ensures |r| == if |s| < target then target else |s|
    ensures r[|r| - |s|..] == s
    ensures forall i :: 0 <= i < |r| - |s| ==> r[i] == fill
  {
    if |s| < target then Repeat(fill, target - |s|) + s else s
  }

  /** For 0..99, `String(n).padStart(2, '0')` is exactly two digits that read back as `n`. */
  lemma PaddedFieldValue(n: int)
    requires 0 <= n < 100
    ensures var f := PadStart(IntToString(n), 2, '0');
      |f| == 2 && Reads(f, n)
  {
    var f := PadStart(IntToString(n), 2, '0');
    if n < 10 {
      assert f == ['0', DigitChar(n)];
      assert f[..1] == ['0'] && ['0'][..0] == [];
      assert DigitsValue(['0']) == 0;
    } else {
      assert Digits(n / 10) == [DigitChar(n / 10)];
      assert f == Digits(n);
      DigitsRoundTrip(n);
    }
  }

  /**
   * One month or day field: `String(n).padStart(2, '0')`. A value in 0..99
   * becomes exactly two digits that read back as the value.
   */
  function TwoDigitField(n: int): (r: string)
    ensures |r| >= 2
    ensures 0 <= n < 100 ==> |r| == 2 && Reads(r, n)
  {
    var f := PadStart(IntToString(n), 2, '0');
    if 0 <= n < 100 then PaddedFieldValue(n); f else f
  }

  /** Where the pieces of `a + "-" + b + "-" + c` sit, for two-character `b` and `c`. */
  lemma JoinedFields(a: string, b: string, c: string, m: int, d: int)
    requires |b| == 2 && |c| == 2 && Reads(b, m) && Reads(c, d)
    ensures var r := a + "-" + b + "-" + c;
      && |r| == |a| + 6
      && r[..|a|] == a && r[|a|] == '-' && r[|a| + 3] == '-'
      && Reads(r[|a| + 1..|a| + 3], m) && Reads(r[|a| + 4..], d)
  {
    var r := a + "-" + b + "-" + c;
    assert r == a + ("-" + b + "-" + c);
    assert r[|a| + 1..|a| + 3] == b;
    assert r[|a| + 4..] == c;
  }

  /**
   * `r` is laid out as a date: the year's text, '-', two digits reading
   * `month`, '-', two digits reading `day`.
   */
  predicate IsDateText(r: string, year: int, month: int, day: int) {
    var y := |IntToString(year)|;
    && |r| == y + 6
    && r[..y] == IntToString(year)
    && r[y] == '-' && r[y + 3] == '-'
    && Reads(r[y + 1..y + 3], month)
    && Reads(r[y + 4..], day)
  }

  /**
   * `getTodayDateString`: the year, then month (zero-based index plus one) and
   * day as two-digit fields, joined by '-'. For a month index in 0..11 and a
   * day in 1..31 the text is laid out as `IsDateText` says.
   */
  function TodayDateString(year: int, monthIndex: int, day: int): (r: string)
    ensures 0 <= monthIndex < 12 && 1 <= day <= 31 ==> IsDateText(r, year, monthIndex + 1, day)
  {
    var y, m, d := IntToString(year), TwoDigitField(monthIndex + 1), TwoDigitField(day);
    if 0 <= monthIndex < 12 && 1 <= day <= 31 then
      JoinedFields(y, m, d, monthIndex + 1, day);
      y + "-" + m + "-" + d
    else
      y + "-" + m + "-" + d
  }

  /** A year from 1000 to 9999 is written with four digits. */
  lemma FourDigitYear(year: int)
    requires 1000 <= year <= 9999
    ensures |IntToString(year)| == 4
  {
    var tens, hundreds := year / 10, year / 100;
    assert hundreds / 10 < 10 && |Digits(hundreds / 10)| == 1;
    assert Digits(hundreds) == Digits(hundreds / 10) + [DigitChar(hundreds % 10)];
    assert tens / 10 == hundreds && Digits(tens) == Digits(hundreds) + [DigitChar(tens % 10)];
    assert year / 10 == tens && Digits(year) == Digits(tens) + [DigitChar(year % 10)];
  }

  /**
   * For a month index in 0..11 and a day in 1..31 the date string has the
   * `YYYY-MM-DD` layout, with the month shifted from zero-based to one-based;
   * a four-digit year gives ten characters.
   */
  lemma DateStringLayout(year: int, monthIndex: int, day: int)
    requires 0 <= monthIndex < 12 && 1 <= day <= 31
    ensures IsDateText(TodayDateString(year, monthIndex, day), year, monthIndex + 1, day)
    ensures 1000 <= year <= 9999 ==> |TodayDateString(year, monthIndex, day)| == 10
  {
    if 1000 <= year <= 9999 {
      FourDigitYear(year);
    }
  }

  /** A date text determines its year, month and day. */
  lemma DateTextDetermines(r: string, y1: int, m1: int, d1: int, y2: int, m2: int, d2: int)
    requires IsDateText(r, y1, m1, d1) && IsDateText(r, y2, m2, d2)
    ensures y1 == y2 && m1 == m2 && d1 == d2
  {
    var s1, s2 := IntToString(y1), IntToString(y2);
    assert s1 == r[..|r| - 6] == s2;
    IntRoundTrip(y1);
    IntRoundTrip(y2);
  }

  /** Distinct calendar dates give distinct strings, so each day has its own storage key. */
  lemma DateStringInjective(y1: int, m1: int, d1: int, y2: int, m2: int, d2: int)
    requires 0 <= m1 < 12 && 1 <= d1 <= 31
    requires 0 <= m2 < 12 && 1 <= d2 <= 31
    ensures TodayDateString(y1, m1, d1) == TodayDateString(y2, m2, d2) ==> y1 == y2 && m1 == m2 && d1 == d2
  {
    if TodayDateString(y1, m1, d1) == TodayDateString(y2, m2, d2) {
      DateStringLayout(y1, m1, d1);
      DateStringLayout(y2, m2, d2);
      DateTextDetermines(TodayDateString(y1, m1, d1), y1, m1 + 1, d1, y2, m2 + 1, d2);
    }
  }
}
