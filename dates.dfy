/** Python's `date` and `datetime` values and the two `strftime` formats the
    insert builder applies to them. */
module Dates {
  import opened Wrappers
  import opened Text

  // The ranges the `datetime` module enforces (MINYEAR = 1, MAXYEAR = 9999).
  type Year = y: int | 1 <= y <= 9999 witness 1
  type Month = m: int | 1 <= m <= 12 witness 1
  type Day = d: int | 1 <= d <= 31 witness 1
  type Hour = h: int | 0 <= h <= 23
  type Minute = m: int | 0 <= m <= 59
  type Second = s: int | 0 <= s <= 59
  type Microsecond = u: int | 0 <= u <= 999999

  datatype Date = Date(year: Year, month: Month, day: Day)

  datatype DateTime = DateTime(year: Year, month: Month, day: Day,
                               hour: Hour, minute: Minute, second: Second,
                               microsecond: Microsecond)

  /** `dt.date()` */
  function DateOf(dt: DateTime): Date
  {
    Date(dt.year, dt.month, dt.day)
  }

  /** `d.strftime("%Y-%m-%d")`: ten characters, fixed-width zero-padded
      fields that read back as the year, month and day. */
  function FormatDate(d: Date): (s: string)
    ensures |s| == 10 && s[4] == '-' && s[7] == '-'
    ensures AllDigits(s[..4]) && ValueOf(s[..4]) == d.year
    ensures AllDigits(s[5..7]) && ValueOf(s[5..7]) == d.month
    ensures AllDigits(s[8..]) && ValueOf(s[8..]) == d.day
  {
    assert Pow10(4) == 10000 && Pow10(2) == 100;
    var s := ZeroPad(d.year, 4) + "-" + ZeroPad(d.month, 2) + "-" + ZeroPad(d.day, 2);
    assert s[..4] == ZeroPad(d.year, 4);
    assert s[5..7] == ZeroPad(d.month, 2);
    assert s[8..] == ZeroPad(d.day, 2);
    s
  }

  /** `dt.strftime("%Y-%m-%d %H:%M:%S")`: the date, a space, then the time of
      day to the second; the microseconds are not written. */
  function FormatDateTime(dt: DateTime): (s: string)
    ensures |s| == 19 && s[..10] == FormatDate(DateOf(dt))
    ensures s[10] == ' ' && s[13] == ':' && s[16] == ':'
    ensures AllDigits(s[11..13]) && ValueOf(s[11..13]) == dt.hour
    ensures AllDigits(s[14..16]) && ValueOf(s[14..16]) == dt.minute
    ensures AllDigits(s[17..]) && ValueOf(s[17..]) == dt.second
  {
    assert Pow10(2) == 100;
    var s := FormatDate(DateOf(dt)) + " " + ZeroPad(dt.hour, 2) + ":"
             + ZeroPad(dt.minute, 2) + ":" + ZeroPad(dt.second, 2);
    assert s[..10] == FormatDate(DateOf(dt));
    assert s[11..13] == ZeroPad(dt.hour, 2);
    assert s[14..16] == ZeroPad(dt.minute, 2);
    assert s[17..] == ZeroPad(dt.second, 2);
    s
  }

  /** Reads `YYYY-MM-DD` text back into a date; anything else is None. Like
      `Day`, it does not check the day against the month's length. */
  function ParseDate(s: string): Option<Date>
  {
    if |s| == 10 && s[4] == '-' && s[7] == '-'
       && AllDigits(s[..4]) && AllDigits(s[5..7]) && AllDigits(s[8..]) then
      var y, m, d := ValueOf(s[..4]), ValueOf(s[5..7]), ValueOf(s[8..]);
      if 1 <= y <= 9999 && 1 <= m <= 12 && 1 <= d <= 31 then Some(Date(y, m, d)) else None
    else None
  }

  /** Reads `YYYY-MM-DD HH:MM:SS` text back into a datetime with no
      microseconds; anything else is None. */
  function ParseDateTime(s: string): Option<DateTime>
  {
    if |s| == 19 && s[10] == ' ' && s[13] == ':' && s[16] == ':'
       && AllDigits(s[11..13]) && AllDigits(s[14..16]) && AllDigits(s[17..]) then
      match ParseDate(s[..10])
      case None => None
      case Some(d) =>
        var h, mi, se := ValueOf(s[11..13]), ValueOf(s[14..16]), ValueOf(s[17..]);
        if h <= 23 && mi <= 59 && se <= 59 then Some(DateTime(d.year, d.month, d.day, h, mi, se, 0))
        else None
    else None
  }

  /** The date text reads back as the same date. */
  lemma ParseFormatDate(d: Date)
    ensures ParseDate(FormatDate(d)) == Some(d)
  {
  }

  /** The datetime text reads back as the same datetime, less its
      microseconds. */
  lemma ParseFormatDateTime(dt: DateTime)
    ensures ParseDateTime(FormatDateTime(dt)) == Some(dt.(microsecond := 0))
  {
    ParseFormatDate(DateOf(dt));
  }
}
