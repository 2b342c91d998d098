/**
 * Calendar values as MySQL hands them to the application (`datetime.date` and
 * `datetime.datetime`), and their rendering with the format string that
 * `Model._format_value` uses.
 *
 * MySQL keeps DATE and DATETIME years in 1000..9999, so `%Y` always renders
 * four digits; a plain date is a stamp whose time of day is midnight.
 */
module Stamps {
  import opened Wrappers

  type Year = y: int | 1000 <= y <= 9999 witness 1000
  type Month = m: int | 1 <= m <= 12 witness 1
  type Day = d: int | 1 <= d <= 31 witness 1
  type Hour = h: int | 0 <= h < 24
  type Minute = m: int | 0 <= m < 60
  type Second = s: int | 0 <= s < 60

  datatype Stamp = Stamp(year: Year, month: Month, day: Day, hour: Hour, minute: Minute, second: Second)

  /** A `datetime.date` value: the time-of-day fields read as midnight. */
  predicate IsDateOnly(s: Stamp) {
    s.hour == 0 && s.minute == 0 && s.second == 0
  }

  predicate IsDigit(c: char) {
    '0' <= c <= '9'
  }

  function Digit(n: int): (c: char)
    requires 0 <= n < 10
    ensures IsDigit(c)
  {
    (n + '0' as int) as char
  }

  function DigitValue(c: char): (n: int)
    requires IsDigit(c)
  {
    c as int - '0' as int
  }

  /** `%I`: the hour on a 12-hour clock, 01..12. */
  function Hour12(h: Hour): (r: int)
    ensures 1 <= r <= 12
    ensures r % 12 == h % 12
  {
    if h % 12 == 0 then 12 else h % 12
  }

  /**
   * 'YYYY-mm-dd HH:xx:SS' with `slot` in the xx position: the one place where
   * the format as written and the format intended differ.
   */
  function Render(s: Stamp, slot: int): (r: string)
    requires 0 <= slot < 100
    ensures |r| == 19
  {
    var century, yy := s.year / 100, s.year % 100;
    [ Digit(century / 10), Digit(century % 10), Digit(yy / 10), Digit(yy % 10), '-',
      Digit(s.month / 10), Digit(s.month % 10), '-',
      Digit(s.day / 10), Digit(s.day % 10), ' ',
      Digit(s.hour / 10), Digit(s.hour % 10), ':',
      Digit(slot / 10), Digit(slot % 10), ':',
      Digit(s.second / 10), Digit(s.second % 10) ]
  }

  /**
   * The format string as app/app/db/models.py:21 writes it, '%Y-%m-%d %H:%I:%S':
   * the middle slot of the time is `%I`, the hour on a 12-hour clock.
   */
  function FormatStampAsWritten(s: Stamp): (r: string)
    ensures |r| == 19
  {
    Render(s, Hour12(s.hour))
  }

  /** The format evidently intended, '%Y-%m-%d %H:%M:%S'. */
  function FormatStamp(s: Stamp): (r: string)
    ensures |r| == 19
  {
    Render(s, s.minute)
  }

  /** Positions of the separators in a rendering. */
  predicate IsSeparatorPosition(i: int) {
    i == 4 || i == 7 || i == 10 || i == 13 || i == 16
  }

  /** The shape of a rendering: digits everywhere except at the separators. */
  predicate WellShaped(r: string) {
    |r| == 19 && forall i :: 0 <= i < 19 && !IsSeparatorPosition(i) ==> IsDigit(r[i])
  }

  function Number2(r: string, i: nat): (n: int)
    requires i + 2 <= |r| && IsDigit(r[i]) && IsDigit(r[i + 1])
  {
    10 * DigitValue(r[i]) + DigitValue(r[i + 1])
  }

  /** Reads a stamp back from a rendering; `None` when a field is out of range. */
  function ParseStamp(r: string): (p: Option<Stamp>)
    requires WellShaped(r)
  {
    var year, month, day := 100 * Number2(r, 0) + Number2(r, 2), Number2(r, 5), Number2(r, 8);
    var hour, minute, second := Number2(r, 11), Number2(r, 14), Number2(r, 17);
    if 1000 <= year && 1 <= month <= 12 && 1 <= day <= 31 && hour < 24 && minute < 60 && second < 60
    then Some(Stamp(year, month, day, hour, minute, second))
    else None
  }

  /** Two digits written for `n` read back as `n`. */
  lemma Number2RoundTrip(r: string, i: nat, n: int)
    requires 0 <= n < 100 && i + 2 <= |r|
    requires r[i] == Digit(n / 10) && r[i + 1] == Digit(n % 10)
    ensures Number2(r, i) == n
  {
  }

  /** Every rendering has the digit/separator shape. */
  lemma RenderWellShaped(s: Stamp, slot: int)
    requires 0 <= slot < 100
    ensures WellShaped(Render(s, slot))
  {
  }

  /** Reading a rendering back gives the stamp, with `slot` in place of the minute. */
  lemma {:induction false} RenderRoundTrip(s: Stamp, slot: Minute)
    ensures WellShaped(Render(s, slot))
    ensures ParseStamp(Render(s, slot)) == Some(s.(minute := slot))
  {
    RenderWellShaped(s, slot);
    RenderDateFields(s, slot);
    RenderTimeFields(s, slot);
  }

  lemma {:induction false} RenderDateFields(s: Stamp, slot: Minute)
    ensures WellShaped(Render(s, slot))
    ensures var r := Render(s, slot);
      100 * Number2(r, 0) + Number2(r, 2) == s.year && Number2(r, 5) == s.month && Number2(r, 8) == s.day
  {
    var r := Render(s, slot);
    RenderWellShaped(s, slot);
    Number2RoundTrip(r, 0, s.year / 100);
    Number2RoundTrip(r, 2, s.year % 100);
    Number2RoundTrip(r, 5, s.month);
    Number2RoundTrip(r, 8, s.day);
  }

  lemma {:induction false} RenderTimeFields(s: Stamp, slot: Minute)
    ensures WellShaped(Render(s, slot))
    ensures var r := Render(s, slot);
      Number2(r, 11) == s.hour && Number2(r, 14) == slot && Number2(r, 17) == s.second
  {
    var r := Render(s, slot);
    RenderWellShaped(s, slot);
    Number2RoundTrip(r, 11, s.hour);
    Number2RoundTrip(r, 14, slot);
    Number2RoundTrip(r, 17, s.second);
  }

  /** The intended rendering keeps every field: parsing it back yields the stamp. */
  lemma FormatStampRoundTrip(s: Stamp)
    ensures WellShaped(FormatStamp(s))
    ensures ParseStamp(FormatStamp(s)) == Some(s)
  {
    RenderRoundTrip(s, s.minute);
  }

  /** Consequently the intended rendering tells distinct stamps apart. */
  lemma FormatStampInjective(s: Stamp, t: Stamp)
    requires FormatStamp(s) == FormatStamp(t)
    ensures s == t
  {
    FormatStampRoundTrip(s);
    FormatStampRoundTrip(t);
  }

  /** As written, the minutes position holds the 12-hour hour: reading the rendering back loses the minute. */
  lemma AsWrittenLosesMinute(s: Stamp)
    ensures WellShaped(FormatStampAsWritten(s))
    ensures ParseStamp(FormatStampAsWritten(s)) == Some(s.(minute := Hour12(s.hour)))
  {
    RenderRoundTrip(s, Hour12(s.hour));
  }

  /** The rendering as written never depends on the minute: stamps that differ only there print alike. */
  lemma AsWrittenIgnoresMinute(s: Stamp, m: Minute)
    ensures FormatStampAsWritten(s.(minute := m)) == FormatStampAsWritten(s)
  {
  }

  /** Two distinct stamps, 13:45:10 and 13:00:10 on the same day, that print alike, as "2020-01-02 13:01:10". */
  lemma AsWrittenCollision()
    ensures var a, b := Stamp(2020, 1, 2, 13, 45, 10), Stamp(2020, 1, 2, 13, 0, 10);
      && a != b
      && FormatStampAsWritten(a) == FormatStampAsWritten(b)
      && FormatStampAsWritten(a) == "2020-01-02 13:01:10"
  {
    AsWrittenIgnoresMinute(Stamp(2020, 1, 2, 13, 45, 10), 0);
  }

  /** A plain date prints 12 in the minutes position: "00:12:00" where "00:00:00" is meant. */
  lemma AsWrittenDateOnly(s: Stamp)
    requires IsDateOnly(s)
    ensures FormatStampAsWritten(s)[11..] == "00:12:00"
    ensures FormatStamp(s)[11..] == "00:00:00"
  {
  }
}
