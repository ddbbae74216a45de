/**
 * Day arithmetic shared by the week helpers and the weekly aggregations.
 *
 * A calendar day is its proleptic Gregorian ordinal, the number Python's
 * `date.toordinal()` gives: 0001-01-01 is day 1 and was a Monday.  Python's
 * `weekday()` numbers Monday 0 through Sunday 6, which on ordinals is
 * `(d - 1) % 7` (Dafny's `%` by a positive divisor agrees with Python's).
 */
module Calendar {

  /** A calendar day as a day ordinal. */
  type Day = int

  /** `date.min.toordinal()` and `date.max.toordinal()` (0001-01-01, 9999-12-31). */
  const MinOrdinal: int := 1
  const MaxOrdinal: int := 3652059

  const Monday: int := 0
  const Saturday: int := 5
  const Sunday: int := 6

  /** Whether a Python `date` with this ordinal exists. */
  predicate InDateRange(d: Day) {
    MinOrdinal <= d <= MaxOrdinal
  }

  /** `date.weekday()`: Monday is 0, Sunday is 6. */
  function Weekday(d: Day): (w: int)
    ensures 0 <= w < 7
    ensures d == 1 ==> w == Monday
  {
    (d - 1) % 7
  }

  /** Moving a day by whole weeks keeps its weekday. */
  lemma WeekdayShift(d: Day, k: int)
    ensures Weekday(d + 7 * k) == Weekday(d)
  {
  }

  /** The next day has the next weekday, Sunday being followed by Monday. */
  lemma WeekdayNext(d: Day)
    ensures Weekday(d + 1) == (Weekday(d) + 1) % 7
  {
  }

  /** Two days with the same weekday lie a whole number of weeks apart. */
  lemma SameWeekdayWholeWeeks(a: Day, b: Day)
    requires Weekday(a) == Weekday(b)
    ensures (a - b) % 7 == 0
  {
  }

  /** Two days with the same weekday less than a week apart are the same day. */
  lemma SameWeekdayWithinWeek(a: Day, b: Day)
    requires Weekday(a) == Weekday(b)
    requires a - 7 < b < a + 7
    ensures a == b
  {
  }

  /**
   * The start of the pandas `W-SAT` period holding day `d`: periods end on a
   * Saturday, so the week starts on the Sunday on or before `d`.  The
   * distance back is the `days_since_sunday` formula of `sunday_weeks_ago`.
   */
  function WeekStart(d: Day): (s: Day)
    ensures Weekday(s) == Sunday
    ensures s <= d < s + 7
  {
    var back := (Weekday(d) + 1) % 7;
    WeekdayShift(d - back, (back + Weekday(d)) / 7);
    assert Weekday(d - back) == Sunday by {
      var q := (d - 1) / 7;
      assert d - 1 == 7 * q + Weekday(d);
      if Weekday(d) == 6 {
        assert d - back - 1 == 7 * q + 6;
      } else {
        assert d - back - 1 == 7 * (q - 1) + 6;
      }
    }
    d - back
  }

  /** The week of `d` is the only Sunday-started week that holds `d`. */
  lemma WeekStartUnique(d: Day, s: Day)
    requires Weekday(s) == Sunday
    requires s <= d < s + 7
    ensures s == WeekStart(d)
  {
  }

  /** Bucketing a week start again leaves it where it is. */
  lemma WeekStartIdempotent(d: Day)
    ensures WeekStart(WeekStart(d)) == WeekStart(d)
  {
  }

  /** Later days never fall into earlier weeks. */
  lemma WeekStartMonotone(a: Day, b: Day)
    requires a <= b
    ensures WeekStart(a) <= WeekStart(b)
  {
  }

  /** Shifting a day by whole weeks shifts its week by the same amount. */
  lemma WeekStartShift(d: Day, k: int)
    ensures WeekStart(d + 7 * k) == WeekStart(d) + 7 * k
  {
  }
}
