/** The Date header (section 7.1.1.1 of RFC 7231): `http_date` of
    src/http/response.rs, and reading its text back. */
module HttpDate {
  import opened Bytes
  import opened Numbers
  import opened Calendar

  const WEEKDAYS: seq<bytes> := ["Sun", "Mon", "Tue", "Wed", "Thu", "Fri", "Sat"]

  const MONTHS: seq<bytes> := [
    "Jan", "Feb", "Mar", "Apr", "May", "Jun",
    "Jul", "Aug", "Sep", "Oct", "Nov", "Dec"]

  const SECONDS_PER_DAY := 86_400

  function Weekday(days: int): (w: nat)
    ensures w < 7
  {
    (days % 7 + 4) % 7
  }

  function WeekdayName(days: int): (name: bytes)
    ensures |name| == 3
  {
    WEEKDAYS[Weekday(days)]
  }

  function MonthName(month: int): (name: bytes)
    requires 1 <= month <= 12
    ensures |name| == 3
  {
    MONTHS[month - 1]
  }

  /** The date of a day since the epoch: valid, and in 1970 or later. */
  function DateOf(days: nat): (d: Date)
    ensures IsDate(d) && d.year >= 1970 && DayNumber(d) == days
  {
    DateIsModern(days);
    CivilFromDays(days)
  }

  lemma DateIsModern(days: nat)
    ensures var d := CivilFromDays(days); IsDate(d) && d.year >= 1970 && DayNumber(d) == days
  {
    hide CivilFromDays, DayNumber, IsDate;
    DayNumberOfCivil(days);
    var d := CivilFromDays(days);
    WithinYear(d);
    if d.year < 1970 {
      NewYearGrows(d.year + 1, 1970);
      EpochNumber();
      WithinYear(EPOCH);
    }
  }

  function DayText(days: nat): bytes {
    var date := DateOf(days);
    WeekdayName(days) + ", " + Pad(date.day, 2) + " " + MonthName(date.month) + " " + Pad(date.year, 4)
  }

  function TimeText(inDay: nat): bytes {
    " " + Pad(inDay / 3600, 2) + ":" + Pad(inDay % 3600 / 60, 2) + ":" + Pad(inDay % 60, 2) + " GMT"
  }

  /** `http_date`. */
  function Write(secs: nat): bytes {
    DayText(secs / SECONDS_PER_DAY) + TimeText(secs % SECONDS_PER_DAY)
  }

  /** Weekdays follow one another from Thursday, 1 January 1970. */
  lemma WeekdaysFollow(days: int)
    ensures WeekdayName(0) == "Thu"
    ensures Weekday(days + 1) == (Weekday(days) + 1) % 7
  {}

  // ----------------------------------------------------------------- reading

  function IndexOf(names: seq<bytes>, s: bytes): Option<nat> {
    if names == [] then None
    else if names[0] == s then Some(0)
    else match IndexOf(names[1..], s) case Some(i) => Some(i + 1) case None => None
  }

  /** The day count of "Sun, 06 Nov 1994"; the weekday must be the one of that date. */
  function ReadDay(s: bytes): Option<nat> {
    if |s| != 16 || s[3..5] != ", " || s[7] != ' ' || s[11] != ' ' then None
    else DayCount(s[..3], Value(s[5..7], 10), IndexOf(MONTHS, s[8..11]), Value(s[12..], 10))
  }

  function DayCount(weekday: bytes, day: Option<nat>, month: Option<nat>, year: Option<nat>): Option<nat> {
    if day.None? || month.None? || year.None? then None
    else
      var date := Date(year.value, month.value + 1, day.value);
      if !IsDate(date) then None
      else
        var days := DayNumber(date);
        if days < 0 || weekday != WeekdayName(days) then None else Some(days)
  }

  /** The second of the day of " 08:49:37 GMT". */
  function ReadTime(s: bytes): Option<nat> {
    if |s| != 13 || s[0] != ' ' || s[3] != ':' || s[6] != ':' || s[9..] != " GMT" then None
    else SecondOfDay(Value(s[1..3], 10), Value(s[4..6], 10), Value(s[7..9], 10))
  }

  function SecondOfDay(hour: Option<nat>, minute: Option<nat>, second: Option<nat>): Option<nat> {
    if hour.None? || minute.None? || second.None? then None
    else if hour.value > 23 || minute.value > 59 || second.value > 59 then None
    else Some(hour.value * 3600 + minute.value * 60 + second.value)
  }

  /** Reads an IMF-fixdate. */
  function Read(s: bytes): Option<nat> {
    if |s| < 16 then None
    else
      var day, time := ReadDay(s[..16]), ReadTime(s[16..]);
      if day.None? || time.None? then None else Some(day.value * SECONDS_PER_DAY + time.value)
  }

  // ------------------------------------------------------------- round trip

  lemma MonthFound(month: int)
    requires 1 <= month <= 12
    ensures IndexOf(MONTHS, MonthName(month)) == Some(month - 1)
  {
    hide IndexOf;
    MonthFoundFrom(0, month - 1);
    assert MONTHS[0..] == MONTHS;
  }

  lemma {:induction false} MonthFoundFrom(k: nat, i: nat)
    requires k <= i < |MONTHS|
    ensures IndexOf(MONTHS[k..], MONTHS[i]) == Some(i - k)
    decreases i - k
  {
    hide MONTHS;
    assert MONTHS[k..][1..] == MONTHS[k + 1..];
    if k < i {
      MonthsDiffer(k, i);
      MonthFoundFrom(k + 1, i);
    }
  }

  lemma MonthsDiffer(a: nat, b: nat)
    requires a < b < |MONTHS|
    ensures MONTHS[a] != MONTHS[b]
  {}

  lemma PadRead(n: nat, width: nat)
    requires (width == 2 && n < 100) || (width == 4 && n < 10_000)
    ensures |Pad(n, width)| == width && Value(Pad(n, width), 10) == Some(n)
  {
    hide Pad;
    ValueOfPad(n, width);
    assert Pow10(2) == 100;
    assert Pow10(4) == 10_000;
    PadLength(n, width);
  }

  lemma DayLayout(w: bytes, d: bytes, m: bytes, y: bytes)
    requires |w| == 3 && |d| == 2 && |m| == 3 && |y| == 4
    ensures ReadDay(w + ", " + d + " " + m + " " + y) == DayCount(w, Value(d, 10), IndexOf(MONTHS, m), Value(y, 10))
  {
    hide Value, IndexOf, DayCount, MONTHS;
    var t := w + ", " + d + " " + m + " " + y;
    assert t[..3] == w;
    assert t[3..5] == ", ";
    assert t[5..7] == d;
    assert t[8..11] == m;
    assert t[12..] == y;
  }

  lemma TimeLayout(h: bytes, n: bytes, s: bytes)
    requires |h| == 2 && |n| == 2 && |s| == 2
    ensures ReadTime(" " + h + ":" + n + ":" + s + " GMT") == SecondOfDay(Value(h, 10), Value(n, 10), Value(s, 10))
  {
    hide Value, SecondOfDay;
    var zone: bytes := " GMT";
    var t := " " + h + ":" + n + ":" + s + zone;
    TimeParts(h, n, s, zone);
  }

  lemma TimeParts(h: bytes, n: bytes, s: bytes, zone: bytes)
    requires |h| == 2 && |n| == 2 && |s| == 2
    ensures var t := " " + h + ":" + n + ":" + s + zone;
            && |t| == 9 + |zone| && t[0] == ' ' && t[3] == ':' && t[6] == ':'
            && t[1..3] == h && t[4..6] == n && t[7..9] == s && t[9..] == zone
  {
    var a: bytes := " " + h;
    var b := a + ":" + n;
    var c := b + ":" + s;
    assert c[1..3] == h && c[4..6] == n && c[7..9] == s;
    assert (c + zone)[..9] == c && (c + zone)[9..] == zone;
  }

  lemma DayRead(days: nat)
    requires days < 2_932_897
    ensures |DayText(days)| == 16 && ReadDay(DayText(days)) == Some(days)
  {
    hide DateOf, WeekdayName, MonthName, Pad, ReadDay, Value, IndexOf;
    var date := DateOf(days);
    YearBefore10000(date);
    PadRead(date.day, 2);
    PadRead(date.year, 4);
    MonthFound(date.month);
    DayLayout(WeekdayName(days), Pad(date.day, 2), MonthName(date.month), Pad(date.year, 4));
  }

  lemma YearBefore10000(d: Date)
    requires IsDate(d) && DayNumber(d) < 2_932_897
    ensures d.year <= 9999
  {
    hide DayNumber;
    assert NewYear(10_000) == 2_932_897 by {
      assert 9999 / 4 == 2499 && 9999 / 100 == 99 && 9999 / 400 == 24;
    }
    WithinYear(d);
    if d.year > 9999 { NewYearGrows(10_000, d.year); }
  }

  lemma TimeRead(inDay: nat)
    requires inDay < SECONDS_PER_DAY
    ensures ReadTime(TimeText(inDay)) == Some(inDay)
  {
    hide Pad, ReadTime, Value;
    var h, n, s := inDay / 3600, inDay % 3600 / 60, inDay % 60;
    PadRead(h, 2);
    PadRead(n, 2);
    PadRead(s, 2);
    TimeLayout(Pad(h, 2), Pad(n, 2), Pad(s, 2));
    assert inDay % 60 == inDay % 3600 % 60;
  }

  /** Up to the end of the year 9999, the written date reads back as the second it was written for. */
  lemma RoundTrip(secs: nat)
    requires secs < 253_402_300_800
    ensures Read(Write(secs)) == Some(secs)
  {
    hide DayText, TimeText, ReadDay, ReadTime;
    var days, inDay := secs / SECONDS_PER_DAY, secs % SECONDS_PER_DAY;
    DayRead(days);
    TimeRead(inDay);
    assert Write(secs)[..16] == DayText(days);
    assert Write(secs)[16..] == TimeText(inDay);
  }
}
