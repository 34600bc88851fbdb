/**
 * The slice of the proleptic Gregorian calendar the scheduling page relies on through
 * `Date`: month lengths, the weekday of a day, month arithmetic with JavaScript's
 * out-of-range month normalisation, and the `YYYY-MM-DD` day key of an ISO timestamp.
 */
module Calendar {
  import opened Text

  /** `Date.prototype.getMonth()`: 0 is January, 11 is December. */
  type Month = m: int | 0 <= m < 12

  datatype Date = Date(year: int, month: Month, day: int)

  predicate IsLeapYear(y: int) {
    y % 4 == 0 && (y % 100 != 0 || y % 400 == 0)
  }

  function DaysInMonth(y: int, m: Month): (r: int)
    ensures 28 <= r <= 31
    ensures m == 1 ==> (r == 29 <==> IsLeapYear(y))
  {
    if m == 1 then (if IsLeapYear(y) then 29 else 28)
    else if m == 3 || m == 5 || m == 8 || m == 10 then 30
    else 31
  }

  /** Days in the months of year y before month m (cumulative month lengths). */
  function DaysBeforeMonth(y: int, m: Month): int {
    [0, 31, 59, 90, 120, 151, 181, 212, 243, 273, 304, 334][m] + (if m > 1 && IsLeapYear(y) then 1 else 0)
  }

  lemma DaysBeforeNextMonth(y: int, m: Month)
    requires m < 11
    ensures DaysBeforeMonth(y, m + 1) == DaysBeforeMonth(y, m) + DaysInMonth(y, m)
  {
  }

  /** Leap years in 1 .. y-1 (for any y, with floor division). */
  function LeapYearsBefore(y: int): int {
    (y - 1) / 4 - (y - 1) / 100 + (y - 1) / 400
  }

  lemma LeapYearsStep(y: int)
    ensures LeapYearsBefore(y + 1) == LeapYearsBefore(y) + if IsLeapYear(y) then 1 else 0
  {
    DivStep(y, 4);
    DivStep(y, 100);
    DivStep(y, 400);
    LeapDivisors(y);
  }

  /** Floor division by k goes up by one exactly at the multiples of k. */
  lemma DivStep(y: int, k: int)
    requires k == 4 || k == 100 || k == 400
    ensures y / k - (y - 1) / k == if y % k == 0 then 1 else 0
  {
  }

  /** Multiples of 400 are multiples of 100, and multiples of 100 are multiples of 4. */
  lemma LeapDivisors(y: int)
    ensures y % 400 == 0 ==> y % 100 == 0
    ensures y % 100 == 0 ==> y % 4 == 0
  {
    if y % 400 == 0 {
      MultipleMod(y / 400, 400, 100);
    }
    if y % 100 == 0 {
      MultipleMod(y / 100, 100, 4);
    }
  }

  lemma MultipleMod(q: int, m: int, k: int)
    requires (m == 400 && k == 100) || (m == 100 && k == 4)
    ensures (m * q) % k == 0
  {
    if m == 400 {
      assert m * q == 100 * (4 * q);
    } else {
      assert m * q == 4 * (25 * q);
    }
  }

  /** Days from 1970-01-01 to January 1st of year y. */
  function DaysBeforeYear(y: int): int {
    365 * (y - 1970) + LeapYearsBefore(y) - LeapYearsBefore(1970)
  }

  /** Days from 1970-01-01 (the epoch) to the given day; months and days may overflow as in `new Date(y, m, d)`. */
  function DayNumber(d: Date): int {
    DaysBeforeYear(d.year) + DaysBeforeMonth(d.year, d.month) + d.day - 1
  }

  /** `Date.prototype.getDay()`: 0 is Sunday; 1970-01-01 was a Thursday. */
  function Weekday(d: Date): (r: int)
    ensures 0 <= r < 7
  {
    (DayNumber(d) + 4) % 7
  }

  /** January 1st 2024 fell on a Monday. */
  lemma NewYear2024IsMonday()
    ensures Weekday(Date(2024, 0, 1)) == 1
  {
  }

  /**
   * `new Date(y, m + delta, 1)`: JavaScript carries an out-of-range month into the year.
   */
  function ShiftMonth(y: int, m: Month, delta: int): (r: (int, Month))
    ensures r.0 * 12 + r.1 == y * 12 + m + delta
  {
    var total := y * 12 + m + delta;
    (total / 12, total % 12)
  }

  /** Months are counted without gaps: Next then Previous, or Previous then Next, is the identity. */
  lemma ShiftMonthRoundTrip(y: int, m: Month, delta: int)
    ensures var (y1, m1) := ShiftMonth(y, m, delta); ShiftMonth(y1, m1, -delta) == (y, m)
  {
  }

  /** December rolls over to January of the next year, January back to December of the previous one. */
  lemma ShiftMonthWraps(y: int)
    ensures ShiftMonth(y, 11, 1) == (y + 1, 0)
    ensures ShiftMonth(y, 0, -1) == (y - 1, 11)
  {
  }

  /** The first day of the next month is exactly `DaysInMonth` days after the first of this one. */
  lemma {:induction false} NextMonthFollows(y: int, m: Month)
    ensures var (y1, m1) := ShiftMonth(y, m, 1);
      DayNumber(Date(y1, m1, 1)) == DayNumber(Date(y, m, 1)) + DaysInMonth(y, m)
  {
    if m < 11 {
      assert ShiftMonth(y, m, 1) == (y, m + 1);
      DaysBeforeNextMonth(y, m);
    } else {
      assert ShiftMonth(y, m, 1) == (y + 1, 0);
      LeapYearsStep(y);
      assert DaysBeforeYear(y + 1) == DaysBeforeYear(y) + 365 + if IsLeapYear(y) then 1 else 0;
    }
  }

  /** The calendar grid of the next month starts on the weekday after this month's last day. */
  lemma NextMonthWeekday(y: int, m: Month)
    ensures var (y1, m1) := ShiftMonth(y, m, 1);
      Weekday(Date(y1, m1, 1)) == (Weekday(Date(y, m, 1)) + DaysInMonth(y, m)) % 7
  {
    NextMonthFollows(y, m);
    WeekdayShift(DayNumber(Date(y, m, 1)) + 4, DaysInMonth(y, m));
  }

  lemma WeekdayShift(a: int, k: int)
    ensures (a + k) % 7 == (a % 7 + k) % 7
  {
    assert a + k == 7 * (a / 7) + (a % 7 + k);
  }

  /**
   * `new Date(y, m, d)` for a day past the end of the month: carry whole months forward.
   * The day number is unchanged, so the result is the same day in normal form.
   */
  function NormalizeDate(y: int, m: Month, d: int): (r: Date)
    requires d >= 1
    ensures DayNumber(r) == DayNumber(Date(y, m, d))
    ensures 1 <= r.day <= DaysInMonth(r.year, r.month)
    decreases d
  {
    if d <= DaysInMonth(y, m) then Date(y, m, d)
    else
      var (y1, m1) := ShiftMonth(y, m, 1);
      NextMonthFollows(y, m);
      NormalizeDate(y1, m1, d - DaysInMonth(y, m))
  }

  /** `n` written with at least `width` digits, zero-padded on the left. */
  function Padded(n: nat, width: nat): (r: string)
    ensures |r| >= width
    ensures forall i :: 0 <= i < |r| ==> '0' <= r[i] <= '9'
    decreases width
  {
    var digits := NatToString(n);
    if |digits| >= width then digits else "0" + Padded(n, width - 1)
  }

  /** Zero padding keeps the number: the padded digits read back as `n`. */
  lemma {:induction false} PaddedParses(n: nat, width: nat)
    ensures ParseNat(Padded(n, width)) == n
    decreases width
  {
    var digits := NatToString(n);
    if |digits| >= width {
      NatToStringRoundTrip(n);
    } else {
      PaddedParses(n, width - 1);
      ParseNatLeadingZero(Padded(n, width - 1));
    }
  }

  /** The `YYYY-MM-DD` part of `toISOString()` for a day of a year 0..9999. */
  function DayKey(d: Date): (r: string)
    requires 0 <= d.year && 1 <= d.day
    ensures 'T' !in r
  {
    var r := Padded(d.year, 4) + "-" + Padded(d.month + 1, 2) + "-" + Padded(d.day, 2);
    assert forall i :: 0 <= i < |r| ==> r[i] != 'T';
    r
  }

  /** A full `toISOString()` value for a day at `hour:minute`, seconds and milliseconds zero. */
  function IsoString(d: Date, hour: nat, minute: nat): string
    requires 0 <= d.year && 1 <= d.day
  {
    DayKey(d) + "T" + TimeOfDay(hour, minute)
  }

  /** The `HH:MM:00.000Z` part after the `T`. */
  function TimeOfDay(hour: nat, minute: nat): string {
    Padded(hour, 2) + ":" + Padded(minute, 2) + ":00.000Z"
  }

  /** `iso.split('T')[0]` recovers the day key. */
  lemma IsoStringDay(d: Date, hour: nat, minute: nat)
    requires 0 <= d.year && 1 <= d.day
    ensures DatePart(IsoString(d, hour, minute)) == DayKey(d)
  {
    DatePartOfJoin(DayKey(d), TimeOfDay(hour, minute));
  }

  /** Milliseconds since the epoch of a day at `hour:minute` (UTC). */
  function Timestamp(d: Date, hour: int, minute: int): int {
    ((DayNumber(d) * 24 + hour) * 60 + minute) * 60000
  }
}
