/** The slice of Python's `datetime` that agents/reminder_agent.py uses:
    `strptime` with the formats "%Y-%m-%d %H:%M" and "%Y-%m-%d", adding a
    `timedelta(minutes=30)`, and `strftime('%Y-%m-%d %H:%M')`. */
module Calendar {
  import opened Wrappers
  import opened Text

  /** A naive `datetime` to the minute (seconds are always zero here). */
  datatype DateTime = DateTime(year: int, month: int, day: int, hour: int, minute: int)

  /** `datetime.MAXYEAR` */
  const MaxYear: int := 9999

  predicate IsLeap(y: int) {
    y % 4 == 0 && (y % 100 != 0 || y % 400 == 0)
  }

  function DaysInMonth(y: int, m: int): int
    requires 1 <= m <= 12
  {
    if m == 2 then (if IsLeap(y) then 29 else 28)
    else if m == 4 || m == 6 || m == 9 || m == 11 then 30
    else 31
  }

  function DaysInYear(y: int): int {
    if IsLeap(y) then 366 else 365
  }

  /** The values `datetime` accepts. */
  predicate Valid(t: DateTime) {
    1 <= t.year <= MaxYear && 1 <= t.month <= 12 && 1 <= t.day <= DaysInMonth(t.year, t.month) &&
    0 <= t.hour < 24 && 0 <= t.minute < 60
  }

  function DaysBeforeYear(y: int): nat
    requires y >= 1
  {
    if y == 1 then 0 else DaysBeforeYear(y - 1) + DaysInYear(y - 1)
  }

  function DaysBeforeMonth(y: int, m: int): nat
    requires 1 <= m <= 12
  {
    if m == 1 then 0 else DaysBeforeMonth(y, m - 1) + DaysInMonth(y, m - 1)
  }

  /** Minutes since 0001-01-01 00:00: the independent measure of time against
      which adding a duration is checked. */
  function Minutes(t: DateTime): int
    requires Valid(t)
  {
    ((DaysBeforeYear(t.year) + DaysBeforeMonth(t.year, t.month) + t.day - 1) * 24 + t.hour) * 60 + t.minute
  }

  /** `t + timedelta(minutes=30)`: `None` where Python raises OverflowError
      (past the last minute of year 9999). */
  function AddHalfHour(t: DateTime): (r: Option<DateTime>)
    requires Valid(t)
    ensures r.Some? ==> Valid(r.value) && Minutes(r.value) == Minutes(t) + 30
    ensures r.None? <==> t.year == MaxYear && t.month == 12 && t.day == 31 && t.hour == 23 && t.minute >= 30
  {
    if t.minute < 30 then Some(t.(minute := t.minute + 30))
    else if t.hour < 23 then Some(t.(hour := t.hour + 1, minute := t.minute - 30))
    else if t.day < DaysInMonth(t.year, t.month) then
      Some(DateTime(t.year, t.month, t.day + 1, 0, t.minute - 30))
    else if t.month < 12 then
      Some(DateTime(t.year, t.month + 1, 1, 0, t.minute - 30))
    else if t.year < MaxYear then
      YearLength(t.year);
      Some(DateTime(t.year + 1, 1, 1, 0, t.minute - 30))
    else None
  }

  /** The twelve months make up the year. */
  lemma YearLength(y: int)
    ensures DaysBeforeMonth(y, 12) + DaysInMonth(y, 12) == DaysInYear(y)
  {
    var leap := if IsLeap(y) then 1 else 0;
    assert DaysBeforeMonth(y, 2) == 31;
    assert DaysBeforeMonth(y, 3) == 59 + leap;
    assert DaysBeforeMonth(y, 4) == 90 + leap;
    assert DaysBeforeMonth(y, 5) == 120 + leap;
    assert DaysBeforeMonth(y, 7) == 181 + leap;
    assert DaysBeforeMonth(y, 9) == 243 + leap;
    assert DaysBeforeMonth(y, 11) == 304 + leap;
    assert DaysBeforeMonth(y, 12) == 334 + leap;
  }

  predicate IsDigit(c: char) {
    '0' <= c <= '9'
  }

  function DigitValue(c: char): int
    requires IsDigit(c)
  {
    c as int - '0' as int
  }

  /** A field read off the front of a string: its value and what is left. */
  datatype Scan = Scan(value: int, rest: string)

  /** `%Y`: `\d\d\d\d` */
  function ScanYear(s: string): (r: Option<Scan>)
    ensures r.Some? ==> |s| >= 4 && 0 <= r.value.value <= 9999 && r.value.rest == s[4..]
  {
    if |s| >= 4 && IsDigit(s[0]) && IsDigit(s[1]) && IsDigit(s[2]) && IsDigit(s[3]) then
      Some(Scan(((DigitValue(s[0]) * 10 + DigitValue(s[1])) * 10 + DigitValue(s[2])) * 10 + DigitValue(s[3]), s[4..]))
    else None
  }

  /** `%m`: `1[0-2]|0[1-9]|[1-9]`, the first alternative that matches. */
  function ScanMonth(s: string): (r: Option<Scan>)
    ensures r.Some? ==> 1 <= r.value.value <= 12
  {
    if |s| >= 2 && s[0] == '1' && '0' <= s[1] <= '2' then Some(Scan(10 + DigitValue(s[1]), s[2..]))
    else if |s| >= 2 && s[0] == '0' && '1' <= s[1] <= '9' then Some(Scan(DigitValue(s[1]), s[2..]))
    else if |s| >= 1 && '1' <= s[0] <= '9' then Some(Scan(DigitValue(s[0]), s[1..]))
    else None
  }

  /** `%d`: `3[01]|[12]\d|0[1-9]|[1-9]| [1-9]` */
  function ScanDay(s: string): (r: Option<Scan>)
    ensures r.Some? ==> 1 <= r.value.value <= 31
  {
    if |s| >= 2 && s[0] == '3' && '0' <= s[1] <= '1' then Some(Scan(30 + DigitValue(s[1]), s[2..]))
    else if |s| >= 2 && '1' <= s[0] <= '2' && IsDigit(s[1]) then Some(Scan(DigitValue(s[0]) * 10 + DigitValue(s[1]), s[2..]))
    else if |s| >= 2 && s[0] == '0' && '1' <= s[1] <= '9' then Some(Scan(DigitValue(s[1]), s[2..]))
    else if |s| >= 1 && '1' <= s[0] <= '9' then Some(Scan(DigitValue(s[0]), s[1..]))
    else if |s| >= 2 && s[0] == ' ' && '1' <= s[1] <= '9' then Some(Scan(DigitValue(s[1]), s[2..]))
    else None
  }

  /** `%H`: `2[0-3]|[0-1]\d|\d` */
  function ScanHour(s: string): (r: Option<Scan>)
    ensures r.Some? ==> 0 <= r.value.value <= 23
  {
    if |s| >= 2 && s[0] == '2' && '0' <= s[1] <= '3' then Some(Scan(20 + DigitValue(s[1]), s[2..]))
    else if |s| >= 2 && '0' <= s[0] <= '1' && IsDigit(s[1]) then Some(Scan(DigitValue(s[0]) * 10 + DigitValue(s[1]), s[2..]))
    else if |s| >= 1 && IsDigit(s[0]) then Some(Scan(DigitValue(s[0]), s[1..]))
    else None
  }

  /** `%M`: `[0-5]\d|\d` */
  function ScanMinute(s: string): (r: Option<Scan>)
    ensures r.Some? ==> 0 <= r.value.value <= 59
  {
    if |s| >= 2 && '0' <= s[0] <= '5' && IsDigit(s[1]) then Some(Scan(DigitValue(s[0]) * 10 + DigitValue(s[1]), s[2..]))
    else if |s| >= 1 && IsDigit(s[0]) then Some(Scan(DigitValue(s[0]), s[1..]))
    else None
  }

  /** A literal separator character of the format. */
  function ScanChar(s: string, c: char): Option<string> {
    if |s| >= 1 && s[0] == c then Some(s[1..]) else None
  }

  /** The space of the format, which `strptime` turns into `\s+`. */
  function ScanSpaces(s: string): Option<string> {
    if |s| >= 1 && IsSpace(s[0]) then Some(TrimStart(s)) else None
  }

  /** The fields of "%Y-%m-%d" at the front of `s`, and what is left. */
  function ScanDate(s: string): Option<(int, int, int, string)> {
    match ScanYear(s)
    case None => None
    case Some(y) =>
      match ScanChar(y.rest, '-')
      case None => None
      case Some(s1) =>
        match ScanMonth(s1)
        case None => None
        case Some(m) =>
          match ScanChar(m.rest, '-')
          case None => None
          case Some(s2) =>
            match ScanDay(s2)
            case None => None
            case Some(d) => Some((y.value, m.value, d.value, d.rest))
  }

  /** The date check `strptime` makes after matching: year 0 and days past the
      end of the month raise ValueError. */
  function MakeDateTime(y: int, m: int, d: int, h: int, mi: int): (r: Option<DateTime>)
    requires 1 <= m <= 12 && 0 <= h < 24 && 0 <= mi < 60 && 1 <= d && y <= MaxYear
    ensures r.Some? ==> Valid(r.value) && r.value == DateTime(y, m, d, h, mi)
    ensures r.None? <==> y < 1 || d > DaysInMonth(y, m)
  {
    if 1 <= y && d <= DaysInMonth(y, m) then Some(DateTime(y, m, d, h, mi)) else None
  }

  /** `datetime.strptime(s, "%Y-%m-%d %H:%M")`; `None` where it raises ValueError
      (no match, unconverted data left over, or no such date). */
  function ParseDateTime(s: string): (r: Option<DateTime>)
    ensures r.Some? ==> Valid(r.value)
  {
    match ScanDate(s)
    case None => None
    case Some((y, m, d, s3)) =>
      match ScanSpaces(s3)
      case None => None
      case Some(s4) =>
        match ScanHour(s4)
        case None => None
        case Some(h) =>
          match ScanChar(h.rest, ':')
          case None => None
          case Some(s5) =>
            match ScanMinute(s5)
            case None => None
            case Some(mi) =>
              if mi.rest != [] then None
              else MakeDateTime(y, m, d, h.value, mi.value)
  }

  /** `datetime.strptime(s, "%Y-%m-%d")`: midnight of that date. */
  function ParseDate(s: string): (r: Option<DateTime>)
    ensures r.Some? ==> Valid(r.value) && r.value.hour == 0 && r.value.minute == 0
  {
    match ScanDate(s)
    case None => None
    case Some((y, m, d, rest)) =>
      if rest != [] then None
      else MakeDateTime(y, m, d, 0, 0)
  }

  /** Two digits, zero-padded: `%m`, `%d`, `%H`, `%M` in `strftime`. */
  function Pad2(n: int): (s: string)
    requires 0 <= n < 100
    ensures |s| == 2 && IsDigit(s[0]) && IsDigit(s[1])
    ensures DigitValue(s[0]) * 10 + DigitValue(s[1]) == n
  {
    [DigitChar(n / 10), DigitChar(n % 10)]
  }

  /** `t.strftime('%Y-%m-%d %H:%M')`. On Linux `%Y` prints the year without
      zero padding, so years before 1000 have fewer than four digits. */
  function Format(t: DateTime): string
    requires Valid(t)
  {
    NatToString(t.year) + "-" + Pad2(t.month) + "-" + Pad2(t.day) + " " + Pad2(t.hour) + ":" + Pad2(t.minute)
  }

  /** A year from 1000 on prints as exactly four digits that `%Y` reads back. */
  lemma YearRoundTrip(y: int, rest: string)
    requires 1000 <= y <= MaxYear
    ensures ScanYear(NatToString(y) + rest) == Some(Scan(y, rest))
  {
    var q1 := y / 10;
    var q2 := q1 / 10;
    var q3 := q2 / 10;
    assert 100 <= q1 < 1000 && 10 <= q2 < 100 && 1 <= q3 < 10;
    var s := NatToString(y);
    assert NatToString(q2) == [DigitChar(q3), DigitChar(q2 % 10)];
    assert NatToString(q1) == NatToString(q2) + [DigitChar(q1 % 10)];
    assert s == NatToString(q1) + [DigitChar(y % 10)];
    assert s == [DigitChar(q3), DigitChar(q2 % 10), DigitChar(q1 % 10), DigitChar(y % 10)];
    var t := s + rest;
    assert t[4..] == rest;
    assert q3 * 10 + q2 % 10 == q2;
    assert q2 * 10 + q1 % 10 == q1;
    assert q1 * 10 + y % 10 == y;
  }

  lemma MonthRoundTrip(m: int, rest: string)
    requires 1 <= m <= 12
    ensures ScanMonth(Pad2(m) + rest) == Some(Scan(m, rest))
  {
    var t := Pad2(m) + rest;
    assert t[2..] == rest;
  }

  lemma DayRoundTrip(d: int, rest: string)
    requires 1 <= d <= 31
    ensures ScanDay(Pad2(d) + rest) == Some(Scan(d, rest))
  {
    var t := Pad2(d) + rest;
    assert t[2..] == rest;
  }

  lemma HourRoundTrip(h: int, rest: string)
    requires 0 <= h <= 23
    ensures ScanHour(Pad2(h) + rest) == Some(Scan(h, rest))
  {
    var t := Pad2(h) + rest;
    assert t[2..] == rest;
  }

  lemma MinuteRoundTrip(mi: int, rest: string)
    requires 0 <= mi <= 59
    ensures ScanMinute(Pad2(mi) + rest) == Some(Scan(mi, rest))
  {
    var t := Pad2(mi) + rest;
    assert t[2..] == rest;
  }

  /** The date part of a formatted time reads back, leaving the time part. */
  lemma DateRoundTrip(t: DateTime, rest: string)
    requires Valid(t) && t.year >= 1000
    ensures ScanDate(NatToString(t.year) + "-" + Pad2(t.month) + "-" + Pad2(t.day) + rest)
              == Some((t.year, t.month, t.day, rest))
  {
    var year, month, day := NatToString(t.year), Pad2(t.month), Pad2(t.day);
    var tail2 := day + rest;
    var dash2 := "-" + tail2;
    var tail1 := month + dash2;
    var dash1 := "-" + tail1;
    var s := year + dash1;
    assert year + "-" + month + "-" + day + rest == s;
    YearRoundTrip(t.year, dash1);
    assert ScanYear(s) == Some(Scan(t.year, dash1));
    assert dash1[1..] == tail1;
    assert ScanChar(dash1, '-') == Some(tail1);
    MonthRoundTrip(t.month, dash2);
    assert dash2[1..] == tail2;
    assert ScanChar(dash2, '-') == Some(tail2);
    DayRoundTrip(t.day, rest);
  }

  /** The time part " HH:MM" of a formatted time reads back. */
  lemma TimeRoundTrip(h: int, mi: int)
    requires 0 <= h <= 23 && 0 <= mi <= 59
    ensures var timePart := Pad2(h) + ":" + Pad2(mi);
            ScanSpaces(" " + timePart) == Some(timePart) &&
            ScanHour(timePart) == Some(Scan(h, ":" + Pad2(mi))) &&
            ScanChar(":" + Pad2(mi), ':') == Some(Pad2(mi)) &&
            ScanMinute(Pad2(mi)) == Some(Scan(mi, ""))
  {
    var timePart := Pad2(h) + ":" + Pad2(mi);
    var rest := " " + timePart;
    assert TrimStart(rest) == timePart by {
      assert rest[1..] == timePart;
      assert !IsSpace(timePart[0]);
    }
    assert timePart == Pad2(h) + (":" + Pad2(mi));
    HourRoundTrip(h, ":" + Pad2(mi));
    assert Pad2(mi) == Pad2(mi) + "";
    MinuteRoundTrip(mi, "");
  }

  /** What `strftime('%Y-%m-%d %H:%M')` prints, `strptime` with the same
      format reads back to the same time, for every year from 1000 on. */
  lemma FormatRoundTrip(t: DateTime)
    requires Valid(t) && t.year >= 1000
    ensures ParseDateTime(Format(t)) == Some(t)
  {
    var timePart := Pad2(t.hour) + ":" + Pad2(t.minute);
    var rest := " " + timePart;
    assert Format(t) == NatToString(t.year) + "-" + Pad2(t.month) + "-" + Pad2(t.day) + rest;
    DateRoundTrip(t, rest);
    TimeRoundTrip(t.hour, t.minute);
    assert MakeDateTime(t.year, t.month, t.day, t.hour, t.minute) == Some(t);
  }

  /** A bare date "YYYY-MM-DD" is no "%Y-%m-%d %H:%M" time, and reads as midnight. */
  lemma DateOnlyRoundTrip(t: DateTime)
    requires Valid(t) && t.year >= 1000
    ensures var s := NatToString(t.year) + "-" + Pad2(t.month) + "-" + Pad2(t.day);
            ParseDateTime(s) == None && ParseDate(s) == Some(t.(hour := 0, minute := 0))
  {
    var s := NatToString(t.year) + "-" + Pad2(t.month) + "-" + Pad2(t.day);
    assert s + "" == s;
    DateRoundTrip(t, "");
  }
}
