/** The local calendar date as the program writes it: `YYYY-MM-DD`, the year
    as `String(getFullYear())`, the month (`getMonth() + 1`) and the day of the
    month each padded to two digits with `padStart(2, "0")`. The clock itself
    is not modelled: the date's three numbers are parameters. */
module DateFormat {
  import opened Options

  /** A local calendar day as `Date` reports it: full year, zero-based month
      (`getMonth()`), day of the month (`getDate()`). */
  datatype CalendarDate = CalendarDate(year: nat, month0: nat, day: nat)

  /** The ranges `getMonth()` and `getDate()` keep to. */
  predicate ValidDate(d: CalendarDate)
  {
    d.month0 < 12 && 1 <= d.day <= 31
  }

  predicate IsDigit(c: char)
  {
    '0' <= c <= '9'
  }

  predicate AllDigits(s: string)
  {
    forall i :: 0 <= i < |s| ==> IsDigit(s[i])
  }

  function DigitChar(n: nat): (c: char)
    requires n < 10
    ensures IsDigit(c) && c as int - '0' as int == n
  {
    ('0' as int + n) as char
  }

  /** `String(n)` for a non-negative integer: its decimal digits. */
  function NatToString(n: nat): (s: string)
    ensures 1 <= |s| && AllDigits(s)
    ensures n < 10 <==> |s| == 1
  {
    if n < 10 then [DigitChar(n)] else NatToString(n / 10) + [DigitChar(n % 10)]
  }

  /** The number a string of decimal digits denotes (the inverse of `NatToString`). */
  function DigitsValue(s: string): nat
    requires AllDigits(s)
  {
    if s == [] then 0 else DigitsValue(s[..|s| - 1]) * 10 + (s[|s| - 1] as int - '0' as int)
  }

  /** `s.padStart(width, fill)`: copies of `fill` in front until `s` is `width` long. */
  function PadStart(s: string, width: nat, fill: char): (r: string)
    ensures |r| == if |s| >= width then |s| else width
    ensures r[|r| - |s|..] == s
    ensures forall i :: 0 <= i < |r| - |s| ==> r[i] == fill
  {
    if |s| >= width then s else seq(width - |s|, _ => fill) + s
  }

  function TwoDigits(n: nat): string
  {
    PadStart(NatToString(n), 2, '0')
  }

  /** `getLocalDateString()` for the local date `d`. */
  function LocalDateString(d: CalendarDate): string
  {
    NatToString(d.year) + "-" + TwoDigits(d.month0 + 1) + "-" + TwoDigits(d.day)
  }

  /** Reads `YYYY-MM-DD` back: the year is everything before the last six
      characters, then a dash, two month digits, a dash, two day digits. */
  function ParseLocalDate(s: string): Option<CalendarDate>
  {
    if |s| < 7 || s[|s| - 6] != '-' || s[|s| - 3] != '-' then None
    else ParseFields(s[..|s| - 6], s[|s| - 5..|s| - 3], s[|s| - 2..])
  }

  function ParseFields(y: string, m: string, d: string): Option<CalendarDate>
  {
    if AllDigits(y) && AllDigits(m) && AllDigits(d) && DigitsValue(m) >= 1
    then Some(CalendarDate(DigitsValue(y), DigitsValue(m) - 1, DigitsValue(d)))
    else None
  }

  lemma {:induction false} DigitsValueOfNatToString(n: nat)
    ensures DigitsValue(NatToString(n)) == n
  {
    if n >= 10 {
      var s := NatToString(n / 10);
      DigitsValueOfNatToString(n / 10);
      var t := s + [DigitChar(n % 10)];
      assert t[..|t| - 1] == s;
    }
  }

  /** A number below 100 padded to two digits reads back as itself. */
  lemma TwoDigitsRoundTrip(n: nat)
    requires n < 100
    ensures |TwoDigits(n)| == 2 && AllDigits(TwoDigits(n)) && DigitsValue(TwoDigits(n)) == n
  {
    var p := TwoDigits(n);
    if n < 10 {
      assert p == ['0', DigitChar(n)];
      assert p[..1] == ['0'];
      assert ['0'][..0] == [];
    } else {
      assert NatToString(n / 10) == [DigitChar(n / 10)];
      DigitsValueOfNatToString(n);
    }
  }

  /** Reading `y-mm-dd` back from its pieces. */
  lemma ParsePieces(y: string, m: string, d: string)
    requires 1 <= |y| && |m| == 2 && |d| == 2
    ensures ParseLocalDate(y + "-" + m + "-" + d) == ParseFields(y, m, d)
  {
    var s := y + "-" + m + "-" + d;
    assert |s| == |y| + 6;
    assert s[|s| - 6] == '-' && s[|s| - 3] == '-';
    assert s[..|s| - 6] == y;
    assert s[|s| - 5..|s| - 3] == m;
    assert s[|s| - 2..] == d;
  }

  /** Reading a formatted local date gives back the date: the format loses nothing. */
  lemma ParseLocalDateString(d: CalendarDate)
    requires ValidDate(d)
    ensures ParseLocalDate(LocalDateString(d)) == Some(d)
  {
    TwoDigitsRoundTrip(d.month0 + 1);
    TwoDigitsRoundTrip(d.day);
    DigitsValueOfNatToString(d.year);
    ParsePieces(NatToString(d.year), TwoDigits(d.month0 + 1), TwoDigits(d.day));
  }

  /** Two valid dates give the same string exactly when they are the same day,
      so comparing the strings compares the days. */
  lemma LocalDateStringInjective(a: CalendarDate, b: CalendarDate)
    requires ValidDate(a) && ValidDate(b)
    ensures LocalDateString(a) == LocalDateString(b) <==> a == b
  {
    ParseLocalDateString(a);
    ParseLocalDateString(b);
  }

  /** For four-digit years the string is exactly `YYYY-MM-DD`: ten characters,
      dashes at positions 4 and 7, digits everywhere else. */
  lemma FourDigitYearShape(d: CalendarDate)
    requires ValidDate(d) && 1000 <= d.year <= 9999
    ensures var s := LocalDateString(d);
      |s| == 10 && s[4] == '-' && s[7] == '-' &&
      forall i :: 0 <= i < 10 && i != 4 && i != 7 ==> IsDigit(s[i])
  {
    FourDigits(d.year);
    TwoDigitsRoundTrip(d.month0 + 1);
    TwoDigitsRoundTrip(d.day);
    FixedWidthShape(NatToString(d.year), TwoDigits(d.month0 + 1), TwoDigits(d.day));
  }

  lemma FixedWidthShape(y: string, m: string, d: string)
    requires |y| == 4 && |m| == 2 && |d| == 2 && AllDigits(y) && AllDigits(m) && AllDigits(d)
    ensures var s := y + "-" + m + "-" + d;
      |s| == 10 && s[4] == '-' && s[7] == '-' &&
      forall i :: 0 <= i < 10 && i != 4 && i != 7 ==> IsDigit(s[i])
  {
    var s := y + "-" + m + "-" + d;
    forall i | 0 <= i < 10 && i != 4 && i != 7
      ensures IsDigit(s[i])
    {
      if i < 4 { assert s[i] == y[i]; }
      else if i < 7 { assert s[i] == m[i - 5]; }
      else { assert s[i] == d[i - 8]; }
    }
  }

  lemma FourDigits(n: nat)
    requires 1000 <= n <= 9999
    ensures |NatToString(n)| == 4
  {
    assert |NatToString(n / 1000)| == 1;
    assert |NatToString(n / 100)| == |NatToString(n / 1000)| + 1;
    assert |NatToString(n / 10)| == |NatToString(n / 100)| + 1;
  }
}
