/**
 * The parts of Python's `datetime` module the bot uses: proleptic Gregorian
 * dates with their ordinal and weekday, `date.fromisoformat`, times of day,
 * and adding hours to a date and time.
 */
module Datetime {
  import opened Wrappers
  import opened Text

  /** A calendar day (Python's `date`). */
  datatype Date = Date(year: int, month: int, day: int)

  predicate IsLeapYear(y: int) {
    y % 4 == 0 && (y % 100 != 0 || y % 400 == 0)
  }

  function DaysInYear(y: int): int {
    if IsLeapYear(y) then 366 else 365
  }

  function DaysInMonth(y: int, m: int): (n: int)
    requires 1 <= m <= 12
    ensures 28 <= n <= 31
  {
    if m == 2 then (if IsLeapYear(y) then 29 else 28)
    else if m == 4 || m == 6 || m == 9 || m == 11 then 30
    else 31
  }

  /** A date that exists; the upper year bound 9999 of Python is not modelled. */
  predicate Valid(d: Date) {
    d.year >= 1 && 1 <= d.month <= 12 && 1 <= d.day <= DaysInMonth(d.year, d.month)
  }

  /** Number of days in the years before year `y`, counting from year 1. */
  function DaysBeforeYear(y: int): nat
    requires y >= 1
  {
    if y == 1 then 0 else DaysBeforeYear(y - 1) + DaysInYear(y - 1)
  }

  /** Number of days in year `y` before month `m`. */
  function DaysBeforeMonth(y: int, m: int): nat
    requires 1 <= m <= 12
  {
    if m == 1 then 0 else DaysBeforeMonth(y, m - 1) + DaysInMonth(y, m - 1)
  }

  /** Python's `date.toordinal()`: 1 for 1 January of year 1. */
  function Ordinal(d: Date): int
    requires Valid(d)
  {
    DaysBeforeYear(d.year) + DaysBeforeMonth(d.year, d.month) + d.day
  }

  /** The twelve months fill the year exactly. */
  lemma MonthsFillYear(y: int)
    ensures DaysBeforeMonth(y, 12) + DaysInMonth(y, 12) == DaysInYear(y)
  {
    var leap := if IsLeapYear(y) then 1 else 0;
    assert DaysBeforeMonth(y, 2) == 31;
    assert DaysBeforeMonth(y, 3) == 59 + leap;
    assert DaysBeforeMonth(y, 4) == 90 + leap;
    assert DaysBeforeMonth(y, 5) == 120 + leap;
    assert DaysBeforeMonth(y, 6) == 151 + leap;
    assert DaysBeforeMonth(y, 7) == 181 + leap;
    assert DaysBeforeMonth(y, 8) == 212 + leap;
    assert DaysBeforeMonth(y, 9) == 243 + leap;
    assert DaysBeforeMonth(y, 10) == 273 + leap;
    assert DaysBeforeMonth(y, 11) == 304 + leap;
    assert DaysBeforeMonth(y, 12) == 334 + leap;
  }

  /** A month ends no later than its year does. */
  lemma DaysBeforeMonthBound(y: int, m: int)
    requires 1 <= m <= 12
    ensures DaysBeforeMonth(y, m) + DaysInMonth(y, m) <= DaysInYear(y)
    decreases 12 - m
  {
    if m < 12 {
      DaysBeforeMonthBound(y, m + 1);
    } else {
      MonthsFillYear(y);
    }
  }

  /** The day after `d` (Python's `d + timedelta(days=1)`). */
  function NextDay(d: Date): (r: Date)
    requires Valid(d)
    ensures Valid(r) && Ordinal(r) == Ordinal(d) + 1
  {
    if d.day < DaysInMonth(d.year, d.month) then Date(d.year, d.month, d.day + 1)
    else if d.month < 12 then Date(d.year, d.month + 1, 1)
    else
      MonthsFillYear(d.year);
      Date(d.year + 1, 1, 1)
  }

  /** The weekday of the day with ordinal `o`: 0 for Monday up to 6 for Sunday (ordinal 1 is a Monday). */
  function WeekdayOf(o: int): (w: int)
    ensures 0 <= w < 7
  {
    (o + 6) % 7
  }

  /** Python's `date.weekday()`. */
  function Weekday(d: Date): (w: int)
    requires Valid(d)
    ensures 0 <= w < 7
  {
    WeekdayOf(Ordinal(d))
  }

  /** Weekdays cycle: the day after a weekday `w` is weekday `(w + 1) % 7`. */
  lemma WeekdayOfSucc(o: int)
    ensures WeekdayOf(o + 1) == (WeekdayOf(o) + 1) % 7
  {
    var q := (o + 6) / 7;
    assert o + 6 == 7 * q + (o + 6) % 7;
    if (o + 6) % 7 == 6 {
      assert o + 7 == 7 * (q + 1);
    } else {
      assert o + 7 == 7 * q + ((o + 6) % 7 + 1);
    }
  }

  lemma WeekdayOfNextDay(d: Date)
    requires Valid(d)
    ensures Weekday(NextDay(d)) == (Weekday(d) + 1) % 7
  {
    var o := Ordinal(d);
    var n := NextDay(d);
    assert Ordinal(n) == o + 1;
    WeekdayOfSucc(o);
    assert Weekday(n) == WeekdayOf(o + 1);
  }

  /** Laws for the calendar: each year lies strictly after all earlier years. */
  lemma {:induction false} DaysBeforeYearGrows(y1: int, y2: int)
    requires 1 <= y1 < y2
    ensures DaysBeforeYear(y1) + DaysInYear(y1) <= DaysBeforeYear(y2)
    decreases y2
  {
    if y1 < y2 - 1 {
      DaysBeforeYearGrows(y1, y2 - 1);
    }
  }

  lemma {:induction false} DaysBeforeMonthGrows(y: int, m1: int, m2: int)
    requires 1 <= m1 < m2 <= 12
    ensures DaysBeforeMonth(y, m1) + DaysInMonth(y, m1) <= DaysBeforeMonth(y, m2)
    decreases m2
  {
    if m1 < m2 - 1 {
      DaysBeforeMonthGrows(y, m1, m2 - 1);
    }
  }

  /** A date's ordinal falls inside its own year's range of ordinals. */
  lemma OrdinalInYear(d: Date)
    requires Valid(d)
    ensures DaysBeforeYear(d.year) < Ordinal(d) <= DaysBeforeYear(d.year) + DaysInYear(d.year)
  {
    DaysBeforeMonthBound(d.year, d.month);
  }

  /** Different dates have different ordinals. */
  lemma OrdinalInjective(a: Date, b: Date)
    requires Valid(a) && Valid(b)
    requires Ordinal(a) == Ordinal(b)
    ensures a == b
  {
    OrdinalInYear(a);
    OrdinalInYear(b);
    if a.year < b.year {
      DaysBeforeYearGrows(a.year, b.year);
    } else if b.year < a.year {
      DaysBeforeYearGrows(b.year, a.year);
    }
    assert a.year == b.year;
    if a.month < b.month {
      DaysBeforeMonthGrows(a.year, a.month, b.month);
    } else if b.month < a.month {
      DaysBeforeMonthGrows(a.year, b.month, a.month);
    }
  }

  /** `n` written with exactly `width` digits, zero-padded on the left (`f"{n:0{width}d}"`). */
  function Padded(n: nat, width: nat): (r: string)
    ensures |r| == width
    ensures forall k :: 0 <= k < |r| ==> IsDigit(r[k])
  {
    if width == 0 then [] else Padded(n / 10, width - 1) + [DigitChar(n % 10)]
  }

  function Pow10(k: nat): (p: nat)
    ensures p >= 1
  {
    if k == 0 then 1 else 10 * Pow10(k - 1)
  }

  /** The padded digits denote the number when it fits in the width. */
  lemma {:induction false} PaddedValue(n: nat, width: nat)
    requires n < Pow10(width)
    ensures DigitsValue(Padded(n, width)) == n
  {
    if width > 0 {
      var r := Padded(n, width);
      assert r[..|r| - 1] == Padded(n / 10, width - 1);
      PaddedValue(n / 10, width - 1);
    }
  }

  /** A digit string denotes less than ten to the power of its length. */
  lemma {:induction false} DigitsValueBound(s: string)
    requires forall k :: 0 <= k < |s| ==> IsDigit(s[k])
    ensures DigitsValue(s) < Pow10(|s|)
  {
    if s != [] {
      DigitsValueBound(s[..|s| - 1]);
    }
  }

  /** A digit string is the padding of its own value to its own length. */
  lemma {:induction false} PaddedOfDigits(s: string)
    requires forall k :: 0 <= k < |s| ==> IsDigit(s[k])
    ensures Padded(DigitsValue(s), |s|) == s
  {
    if s != [] {
      var init := s[..|s| - 1];
      PaddedOfDigits(init);
      var v := DigitsValue(s);
      assert v / 10 == DigitsValue(init);
      assert DigitChar(v % 10) == s[|s| - 1];
      assert s == init + [s[|s| - 1]];
    }
  }

  /** Positions of the digits and dashes of an ISO 8601 calendar date `YYYY-MM-DD`. */
  predicate IsoShaped(s: string) {
    |s| == 10 && s[4] == '-' && s[7] == '-'
    && (forall k :: 0 <= k < 4 ==> IsDigit(s[k]))
    && (forall k :: 5 <= k < 7 ==> IsDigit(s[k]))
    && (forall k :: 8 <= k < 10 ==> IsDigit(s[k]))
  }

  /**
   * Python's `date.fromisoformat(s)` for the `YYYY-MM-DD` form: `None` where
   * Python raises `ValueError` (wrong shape, or a date that does not exist).
   */
  function FromIsoFormat(s: string): (r: Option<Date>)
    ensures r.Some? ==> Valid(r.value) && 1 <= r.value.year <= 9999
  {
    if !IsoShaped(s) then None
    else
      var d := Date(DigitsValue(s[..4]), DigitsValue(s[5..7]), DigitsValue(s[8..]));
      DigitsValueBound(s[..4]);
      assert Pow10(4) == 10000;
      if Valid(d) then Some(d) else None
  }

  /** Python's `date.isoformat()`: the `YYYY-MM-DD` form of a date. */
  function IsoFormat(d: Date): (s: string)
    requires Valid(d) && d.year <= 9999
    ensures IsoShaped(s)
  {
    Padded(d.year, 4) + "-" + Padded(d.month, 2) + "-" + Padded(d.day, 2)
  }

  /** Parsing the ISO form of a date gives the date back. */
  lemma IsoRoundTrip(d: Date)
    requires Valid(d) && d.year <= 9999
    ensures FromIsoFormat(IsoFormat(d)) == Some(d)
  {
    var s := IsoFormat(d);
    assert s[..4] == Padded(d.year, 4);
    assert s[5..7] == Padded(d.month, 2);
    assert s[8..] == Padded(d.day, 2);
    PaddedValue(d.year, 4);
    PaddedValue(d.month, 2);
    PaddedValue(d.day, 2);
  }

  /** Every string that parses is the ISO form of what it parses to. */
  lemma IsoParsedIsCanonical(s: string)
    requires FromIsoFormat(s).Some?
    ensures IsoFormat(FromIsoFormat(s).value) == s
  {
    PaddedOfDigits(s[..4]);
    PaddedOfDigits(s[5..7]);
    PaddedOfDigits(s[8..]);
    assert s == s[..4] + "-" + s[5..7] + "-" + s[8..];
  }

  /** A time of day (Python's naive `time`). */
  datatype Time = Time(hour: int, minute: int, second: int, microsecond: int)

  /** The ranges Python's `time(...)` constructor enforces. */
  predicate ValidTime(t: Time) {
    0 <= t.hour < 24 && 0 <= t.minute < 60 && 0 <= t.second < 60 && 0 <= t.microsecond < 1000000
  }

  /** Microseconds since midnight: Python orders times by this number. */
  function Micros(t: Time): int {
    ((t.hour * 60 + t.minute) * 60 + t.second) * 1000000 + t.microsecond
  }

  /** `time(hour, minute)`, with `None` where Python raises `ValueError`. */
  function MakeTime(hour: int, minute: int): (r: Option<Time>)
    ensures r.Some? <==> 0 <= hour < 24 && 0 <= minute < 60
    ensures r.Some? ==> ValidTime(r.value) && r.value.hour == hour && r.value.minute == minute
                        && Micros(r.value) == (hour * 60 + minute) * 60000000
  {
    if 0 <= hour < 24 && 0 <= minute < 60 then Some(Time(hour, minute, 0, 0)) else None
  }

  /** A date with a time of day (Python's `datetime`, wall-clock). */
  datatype DateTime = DateTime(date: Date, time: Time)

  predicate ValidDateTime(dt: DateTime) {
    Valid(dt.date) && ValidTime(dt.time)
  }

  /** Microseconds since the start of day 0: wall-clock datetimes are ordered by this. */
  function Instant(dt: DateTime): int
    requires Valid(dt.date)
  {
    Ordinal(dt.date) * 86400000000 + Micros(dt.time)
  }

  /** `dt + timedelta(hours=h)` for less than a day, rolling over to the next date past midnight. */
  function AddHours(dt: DateTime, h: int): (r: DateTime)
    requires ValidDateTime(dt) && 0 <= h < 24
    ensures ValidDateTime(r)
    ensures Instant(r) == Instant(dt) + h * 3600000000
  {
    var hour := dt.time.hour + h;
    if hour < 24 then DateTime(dt.date, dt.time.(hour := hour))
    else DateTime(NextDay(dt.date), dt.time.(hour := hour - 24))
  }
}
