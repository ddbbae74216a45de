/**
 * The week-boundary helpers `monday_weeks_ago` and `sunday_weeks_ago`, and
 * the reporting window that `main` derives from them.
 *
 * `date.today()` becomes the parameter `today`.  Python computes with
 * `date - timedelta`, which raises OverflowError when the result leaves the
 * range of `date`; that error is the `OverflowError` value here.
 */
module WeekBounds {
  import opened Calendar

  /** A Python date, or the OverflowError raised while computing it. */
  datatype DateResult = Ok(date: Day) | OverflowError

  /** `d - timedelta(days=days)`. */
  function Minus(d: Day, days: int): (r: DateResult)
    ensures r.Ok? <==> InDateRange(d - days)
    ensures r.Ok? ==> r.date == d - days
  {
    if InDateRange(d - days) then Ok(d - days) else OverflowError
  }

  /**
   * The Monday of the week `n` weeks before the week of `today` (weeks
   * running Monday to Sunday): the result is a Monday that lies `7 * n` days
   * plus 0 to 6 days before `today`, and the call fails exactly when that
   * Monday is not a Python date.
   */
  function MondayWeeksAgo(today: Day, n: int): (r: DateResult)
    requires InDateRange(today)
    ensures r.Ok? ==> InDateRange(r.date) && Weekday(r.date) == Monday
    ensures r.Ok? ==> r.date + 7 * n <= today < r.date + 7 * n + 7
    ensures r.OverflowError? ==>
      forall m :: Weekday(m) == Monday && m + 7 * n <= today < m + 7 * n + 7 ==> !InDateRange(m)
  {
    var thisMonday := Minus(today, Weekday(today));
    if thisMonday.OverflowError? then OverflowError
    else
      var m := thisMonday.date - 7 * n;
      WeekdayShift(thisMonday.date, -n);
      assert Weekday(thisMonday.date) == Monday by {
        var q := (today - 1) / 7;
        assert today - 1 == 7 * q + Weekday(today);
        assert thisMonday.date - 1 == 7 * q + 0;
      }
      assert forall m' :: Weekday(m') == Monday && m' + 7 * n <= today < m' + 7 * n + 7 ==> m' == m by {
        forall m' | Weekday(m') == Monday && m' + 7 * n <= today < m' + 7 * n + 7
          ensures m' == m
        {
          SameWeekdayWithinWeek(m', m);
        }
      }
      Minus(thisMonday.date, 7 * n)
  }

  /**
   * The Sunday that starts the week (weeks running Sunday to Saturday) lying
   * `n` weeks before the week of `today`: a Sunday `7 * n` days plus 0 to 6
   * days before `today`.  It fails when the Sunday of this week is before
   * 0001-01-01 (the first six days of the calendar) or when the result is
   * not a Python date.
   */
  function SundayWeeksAgo(today: Day, n: int): (r: DateResult)
    requires InDateRange(today)
    ensures r.Ok? ==> InDateRange(r.date) && Weekday(r.date) == Sunday
    ensures r.Ok? ==> r.date + 7 * n <= today < r.date + 7 * n + 7
    ensures today < 7 ==> r.OverflowError?
    ensures r.OverflowError? && today >= 7 ==>
      forall s :: Weekday(s) == Sunday && s + 7 * n <= today < s + 7 * n + 7 ==> !InDateRange(s)
  {
    var daysSinceSunday := (Weekday(today) + 1) % 7;
    var thisSunday := Minus(today, daysSinceSunday);
    assert thisSunday.Ok? ==> thisSunday.date == WeekStart(today);
    assert today < 7 ==> WeekStart(today) == 0 by {
      if today < 7 {
        WeekStartUnique(today, 0);
      }
    }
    if thisSunday.OverflowError? then OverflowError
    else
      var s := thisSunday.date - 7 * n;
      WeekdayShift(thisSunday.date, -n);
      assert forall s' :: Weekday(s') == Sunday && s' + 7 * n <= today < s' + 7 * n + 7 ==> s' == s by {
        forall s' | Weekday(s') == Sunday && s' + 7 * n <= today < s' + 7 * n + 7
          ensures s' == s
        {
          SameWeekdayWithinWeek(s', s);
        }
      }
      Minus(thisSunday.date, 7 * n)
  }

  /** The start of the reporting window, `sunday_weeks_ago(8)` in `main`. */
  function WindowStart(today: Day): (r: DateResult)
    requires InDateRange(today)
    ensures r.Ok? ==> Weekday(r.date) == Sunday && 56 <= today - r.date <= 62
  {
    SundayWeeksAgo(today, 8)
  }

  /** For `n = 0` the Monday always exists: it is today or one of the six days before. */
  lemma MondayThisWeek(today: Day)
    requires InDateRange(today)
    ensures MondayWeeksAgo(today, 0).Ok?
    ensures var m := MondayWeeksAgo(today, 0).date; m <= today <= m + 6 && Weekday(m) == Monday
  {
  }

  /** Each further week back moves the Monday back by exactly seven days. */
  lemma MondayStep(today: Day, n: int)
    requires InDateRange(today)
    requires MondayWeeksAgo(today, n).Ok?
    ensures MondayWeeksAgo(today, n).date == MondayWeeksAgo(today, 0).date - 7 * n
  {
  }

  /**
   * From the seventh day of the calendar on, `sunday_weeks_ago(0)` is the
   * start of the `W-SAT` week holding today: today itself on a Sunday,
   * otherwise the latest Sunday before it.
   */
  lemma SundayThisWeek(today: Day)
    requires InDateRange(today) && today >= 7
    ensures SundayWeeksAgo(today, 0) == Ok(WeekStart(today))
    ensures Weekday(today) == Sunday ==> SundayWeeksAgo(today, 0) == Ok(today)
    ensures Weekday(today) != Sunday ==> today - 6 <= SundayWeeksAgo(today, 0).date < today
  {
  }

  /** Each further week back moves the Sunday back by exactly seven days. */
  lemma {:induction false} SundayStep(today: Day, n: int)
    requires InDateRange(today)
    requires SundayWeeksAgo(today, n).Ok?
    ensures SundayWeeksAgo(today, n).date == WeekStart(today) - 7 * n
    ensures today >= 7
    ensures SundayWeeksAgo(today, n).date == SundayWeeksAgo(today, 0).date - 7 * n
  {
    var s := SundayWeeksAgo(today, n).date;
    WeekdayShift(s, n);
    WeekStartUnique(today, s + 7 * n);
    SundayThisWeek(today);
  }

  /**
   * How the two helpers relate for the same `n`: the Sunday is the day
   * before the Monday, except on a Sunday, when the Monday's week (Monday to
   * Sunday) ends today and the Sunday is six days after the Monday.
   */
  lemma MondaySundayRelation(today: Day, n: int)
    requires InDateRange(today)
    requires MondayWeeksAgo(today, n).Ok? && SundayWeeksAgo(today, n).Ok?
    ensures var m, s := MondayWeeksAgo(today, n).date, SundayWeeksAgo(today, n).date;
      s == if Weekday(today) == Sunday then m + 6 else m - 1
  {
  }

  /** The window start exists exactly when the Sunday of this week is past day 56. */
  lemma WindowStartDefined(today: Day)
    requires InDateRange(today)
    ensures WindowStart(today).Ok? <==> WeekStart(today) >= 57
    ensures today >= 63 ==> WindowStart(today).Ok?
  {
  }

  /**
   * The window spans nine whole `W-SAT` weeks: today's week starts 56 days
   * after the window start, and every day from the start to today falls into
   * the week starting `7 * k` days after it for some `k` in 0..8.
   */
  lemma WindowCoversNineWeeks(today: Day, d: Day)
    requires InDateRange(today)
    requires WindowStart(today).Ok?
    requires WindowStart(today).date <= d <= today
    ensures WeekStart(today) == WindowStart(today).date + 56
    ensures var k := (WeekStart(d) - WindowStart(today).date) / 7;
      0 <= k <= 8 && WeekStart(d) == WindowStart(today).date + 7 * k
  {
  }

  /**
   * On Wednesday 2024-01-17 (day 738902) this week's Monday is 2024-01-15,
   * not the Monday before, and this week's Sunday is 2024-01-14.
   */
  lemma WednesdayExample()
    ensures MondayWeeksAgo(738902, 0) == Ok(738900)
    ensures SundayWeeksAgo(738902, 0) == Ok(738899)
    ensures WindowStart(738902) == Ok(738899 - 56)
  {
    assert Weekday(738902) == 2;
    assert Minus(738902, 2) == Ok(738900);
    assert Minus(738902, 3) == Ok(738899);
  }
}
