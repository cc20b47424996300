/**
 * Wall-clock times as the booking form holds them: the value of an HTML
 * time input, "HH:MM" on a 24-hour clock, or "" when nothing was chosen.
 * The booking page turns such a string into a moment of one fixed day by
 * handing "2024-01-01 HH:MM" to the browser's date parser; here that is the
 * number of minutes after midnight.
 */
module Clock {
  import opened Opt

  const MinutesPerDay: nat := 24 * 60

  predicate IsDigit(c: char) { '0' <= c <= '9' }

  function DigitValue(c: char): (d: nat)
    requires IsDigit(c)
    ensures d < 10
  {
    (c as int) - ('0' as int)
  }

  function DigitChar(d: nat): (c: char)
    requires d < 10
    ensures IsDigit(c) && DigitValue(c) == d
  {
    (('0' as int) + d) as char
  }

  /**
   * Minutes after midnight of an "HH:MM" string with HH in 00..23 and MM in
   * 00..59; None for any other string (the browser then yields an invalid
   * date).
   */
  function ParseClock(s: string): (r: Option<nat>)
    ensures r.Some? ==> r.value < MinutesPerDay
  {
    if |s| == 5 && IsDigit(s[0]) && IsDigit(s[1]) && s[2] == ':' && IsDigit(s[3]) && IsDigit(s[4]) then
      var hh := 10 * DigitValue(s[0]) + DigitValue(s[1]);
      var mm := 10 * DigitValue(s[3]) + DigitValue(s[4]);
      if hh < 24 && mm < 60 then Some(60 * hh + mm) else None
    else None
  }

  /** The "HH:MM" text of a minute of the day, with leading zeros. */
  function ClockText(m: nat): (s: string)
    requires m < MinutesPerDay
    ensures |s| == 5 && s[2] == ':'
  {
    var hh := m / 60;
    var mm := m % 60;
    [DigitChar(hh / 10), DigitChar(hh % 10), ':', DigitChar(mm / 10), DigitChar(mm % 10)]
  }

  /** Every minute of the day is written so that it reads back as itself. */
  lemma ParseClockText(m: nat)
    requires m < MinutesPerDay
    ensures ParseClock(ClockText(m)) == Some(m)
  {
    var s := ClockText(m);
    var hh := m / 60;
    var mm := m % 60;
    assert DigitValue(s[0]) == hh / 10 && DigitValue(s[1]) == hh % 10;
    assert DigitValue(s[3]) == mm / 10 && DigitValue(s[4]) == mm % 10;
    assert 10 * (hh / 10) + hh % 10 == hh;
    assert 10 * (mm / 10) + mm % 10 == mm;
  }

  /** A string that parses is exactly the canonical text of its minute. */
  lemma ClockTextParse(s: string)
    requires ParseClock(s).Some?
    ensures ClockText(ParseClock(s).value) == s
  {
    var hh := 10 * DigitValue(s[0]) + DigitValue(s[1]);
    var mm := 10 * DigitValue(s[3]) + DigitValue(s[4]);
    var m := 60 * hh + mm;
    assert m / 60 == hh && m % 60 == mm;
    var t := ClockText(m);
    assert t[0] == s[0] && t[1] == s[1] && t[3] == s[3] && t[4] == s[4];
  }
}
