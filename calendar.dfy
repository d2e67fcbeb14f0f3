/**
 * Naive `datetime` values as the pipeline sees them: an instant is a count of microseconds
 * since 1970-01-01T00:00:00 in the proleptic Gregorian calendar, and `isoformat()` renders it
 * as `YYYY-MM-DDTHH:MM:SS` followed by `.ffffff` when the microsecond is not zero.
 */
module Calendar {
  import opened PyText

  const MicrosPerDay: int := 86_400_000_000

  datatype DateTime = DateTime(year: int, month: int, day: int, hour: int, minute: int, second: int, microsecond: int)

  predicate IsLeap(y: int) {
    y % 4 == 0 && (y % 100 != 0 || y % 400 == 0)
  }

  function DaysInYear(y: int): int {
    if IsLeap(y) then 366 else 365
  }

  /** Days from 1970-01-01 to the first of January of year `y` (negative before 1970). */
  function DaysBefore(y: int): int
    decreases if y < 1970 then 1970 - y else y - 1970
  {
    if y == 1970 then 0
    else if y > 1970 then DaysBefore(y - 1) + DaysInYear(y - 1)
    else DaysBefore(y + 1) - DaysInYear(y)
  }

  /** The year holding day `days` counted from the first of January of year `y`, and the day within it. */
  function YearOf(days: int, y: int): (r: (int, int))
    ensures 0 <= r.1 < DaysInYear(r.0)
    ensures DaysBefore(r.0) + r.1 == DaysBefore(y) + days
    decreases if days < 0 then 1 else 0, if days < 0 then -days else days
  {
    if days < 0 then YearOf(days + DaysInYear(y - 1), y - 1)
    else if days >= DaysInYear(y) then YearOf(days - DaysInYear(y), y + 1)
    else (y, days)
  }

  /** Days of year `y` before the first of month `m` (1 <= m <= 13; month 13 closes the year). */
  function DaysBeforeMonth(y: int, m: int): int
    requires 1 <= m <= 13
  {
    [0, 0, 31, 59, 90, 120, 151, 181, 212, 243, 273, 304, 334, 365][m] + (if IsLeap(y) && m >= 3 then 1 else 0)
  }

  /** The month `1 <= m' <= m` holding day-of-year `doy`, searching down from month `m`. */
  function MonthOf(y: int, doy: int, m: int): (m': int)
    requires 1 <= m <= 12 && 0 <= doy < DaysBeforeMonth(y, m + 1)
    ensures 1 <= m' <= m
    ensures DaysBeforeMonth(y, m') <= doy < DaysBeforeMonth(y, m' + 1)
  {
    if m == 1 || DaysBeforeMonth(y, m) <= doy then m else MonthOf(y, doy, m - 1)
  }

  /** The calendar fields of instant `t`. */
  function CivilOf(t: int): (dt: DateTime)
    ensures 1 <= dt.month <= 12 && 1 <= dt.day <= 31
    ensures 0 <= dt.hour < 24 && 0 <= dt.minute < 60 && 0 <= dt.second < 60 && 0 <= dt.microsecond < 1_000_000
  {
    var days, rest := t / MicrosPerDay, t % MicrosPerDay;
    var (y, doy) := YearOf(days, 1970);
    var m := MonthOf(y, doy, 12);
    var secs := rest / 1_000_000;
    DateTime(y, m, doy - DaysBeforeMonth(y, m) + 1, secs / 3600, secs % 3600 / 60, secs % 60, rest % 1_000_000)
  }

  /** The instant a calendar value stands for. */
  function EpochMicros(dt: DateTime): int
    requires 1 <= dt.month <= 12
  {
    ((DaysBefore(dt.year) + DaysBeforeMonth(dt.year, dt.month) + dt.day - 1) * 86_400
      + dt.hour * 3600 + dt.minute * 60 + dt.second) * 1_000_000 + dt.microsecond
  }

  /** The calendar fields are an exact encoding of the instant. */
  lemma CivilOfRoundTrip(t: int)
    ensures EpochMicros(CivilOf(t)) == t
  {
    var days, rest := t / MicrosPerDay, t % MicrosPerDay;
    var (y, doy) := YearOf(days, 1970);
    var m := MonthOf(y, doy, 12);
    var secs := rest / 1_000_000;
    assert DaysBefore(y) + doy == days;
    assert secs / 3600 * 3600 + secs % 3600 / 60 * 60 + secs % 60 == secs;
    assert secs * 1_000_000 + rest % 1_000_000 == rest;
    assert days * MicrosPerDay + rest == t;
  }

  /** A signed integer printed with at least `width` digits. */
  function SignedPad(n: int, width: nat): string {
    if n < 0 then "-" + ZeroPad(-n, width) else ZeroPad(n, width)
  }

  /** `datetime.isoformat()` of a naive datetime. */
  function IsoFormat(dt: DateTime): string {
    SignedPad(dt.year, 4) + "-" + SignedPad(dt.month, 2) + "-" + SignedPad(dt.day, 2)
      + "T" + SignedPad(dt.hour, 2) + ":" + SignedPad(dt.minute, 2) + ":" + SignedPad(dt.second, 2)
      + (if dt.microsecond != 0 then "." + SignedPad(dt.microsecond, 6) else "")
  }

  function Pow10(n: nat): nat {
    if n == 0 then 1 else 10 * Pow10(n - 1)
  }

  lemma {:induction false} NatToStringWidth(n: nat, width: nat)
    requires 1 <= width && n < Pow10(width)
    ensures |NatToString(n)| <= width
  {
    if n >= 10 {
      NatToStringWidth(n / 10, width - 1);
    }
  }

  /** A number below 10^width is padded to exactly `width` digits. */
  lemma ZeroPadWidth(n: nat, width: nat)
    requires 1 <= width && n < Pow10(width)
    ensures |ZeroPad(n, width)| == width
  {
    NatToStringWidth(n, width);
  }

  /**
   * For a year Python can represent, the text has the fixed layout `YYYY-MM-DDTHH:MM:SS`
   * (19 characters) or `YYYY-MM-DDTHH:MM:SS.ffffff` (26 characters).
   */
  lemma IsoFormatFields(dt: DateTime)
    requires 1 <= dt.year <= 9999 && 1 <= dt.month <= 12 && 1 <= dt.day <= 31
    requires 0 <= dt.hour < 24 && 0 <= dt.minute < 60 && 0 <= dt.second < 60 && 0 <= dt.microsecond < 1_000_000
    ensures var s := IsoFormat(dt);
      && |s| == (if dt.microsecond == 0 then 19 else 26)
      && s[4] == '-' && s[7] == '-' && s[10] == 'T' && s[13] == ':' && s[16] == ':'
      && (dt.microsecond != 0 ==> s[19] == '.')
  {
    assert Pow10(2) == 100 && Pow10(4) == 10000 && Pow10(6) == 1_000_000 by {
      assert Pow10(1) == 10;
      assert Pow10(3) == 1000;
      assert Pow10(5) == 100000;
    }
    ZeroPadWidth(dt.year, 4);
    ZeroPadWidth(dt.month, 2);
    ZeroPadWidth(dt.day, 2);
    ZeroPadWidth(dt.hour, 2);
    ZeroPadWidth(dt.minute, 2);
    ZeroPadWidth(dt.second, 2);
    ZeroPadWidth(dt.microsecond, 6);
  }

  /** The layout holds for every instant whose year Python can represent. */
  lemma IsoFormatLayout(t: int)
    requires 1 <= CivilOf(t).year <= 9999
    ensures var s := IsoFormat(CivilOf(t));
      && |s| == (if CivilOf(t).microsecond == 0 then 19 else 26)
      && s[4] == '-' && s[7] == '-' && s[10] == 'T' && s[13] == ':' && s[16] == ':'
      && (CivilOf(t).microsecond != 0 ==> s[19] == '.')
  {
    IsoFormatFields(CivilOf(t));
  }
}
