/**
 * What `main` puts together: the window start `sunday_weeks_ago(8)`, the
 * tickets the tracker returns for `created >= start`, and the two weekly
 * aggregations over them.  The tracker query itself is outside the model;
 * the lemmas here take as given that every ticket's UTC creation day lies
 * between the window start and today.
 */
module Report {
  import opened Calendar
  import opened WeekBounds
  import SupportTable
  import WeeklySeries

  /** Week starts that are Sundays, strictly ascending. */
  predicate AscendingSundays(weeks: seq<Day>) {
    && (forall i :: 0 <= i < |weeks| ==> Weekday(weeks[i]) == Sunday)
    && (forall i, j :: 0 <= i < j < |weeks| ==> weeks[i] < weeks[j])
  }

  /** Ascending Sundays are at least a week apart, so the `i`-th is `7 * i` days past the first or later. */
  lemma {:induction false} AscendingSundaysSpread(weeks: seq<Day>, i: int)
    requires AscendingSundays(weeks)
    requires 0 <= i < |weeks|
    ensures weeks[i] >= weeks[0] + 7 * i
  {
    if i > 0 {
      AscendingSundaysSpread(weeks, i - 1);
      SameWeekdayWholeWeeks(weeks[i], weeks[i - 1]);
    }
  }

  /** At most nine ascending Sundays fit between a Sunday `start` and `start + 56`. */
  lemma {:induction false} NineWeeksAtMost(weeks: seq<Day>, start: Day)
    requires AscendingSundays(weeks)
    requires forall i :: 0 <= i < |weeks| ==> start <= weeks[i] <= start + 56
    ensures |weeks| <= 9
  {
    if |weeks| > 0 {
      AscendingSundaysSpread(weeks, |weeks| - 1);
    }
  }

  /** Every creation day lies in the window: from its start up to today. */
  predicate InWindow(today: Day, created: seq<Day>)
    requires InDateRange(today)
  {
    WindowStart(today).Ok? &&
    forall i :: 0 <= i < |created| ==> WindowStart(today).date <= created[i] <= today
  }

  function CreatedDays(issues: seq<SupportTable.Issue>): (days: seq<Day>)
    ensures |days| == |issues|
    ensures forall i :: 0 <= i < |issues| ==> days[i] == issues[i].created
  {
    seq(|issues|, i requires 0 <= i < |issues| => issues[i].created)
  }

  /**
   * Support chart: with every ticket inside the window, each row is one of
   * the nine week starts `start + 7 * k` (k in 0..8), so there are at most
   * nine bars.
   */
  lemma SupportTableFitsWindow(today: Day, issues: seq<SupportTable.Issue>)
    requires InDateRange(today) && |issues| > 0
    requires InWindow(today, CreatedDays(issues))
    ensures var rows := SupportTable.WeeklySupportTable(issues).rows;
      && (forall i :: 0 <= i < |rows| ==>
            exists k :: 0 <= k <= 8 && rows[i].week == WindowStart(today).date + 7 * k)
      && |rows| <= 9
  {
    var start := WindowStart(today).date;
    var rows := SupportTable.WeeklySupportTable(issues).rows;
    var weeks := seq(|rows|, i requires 0 <= i < |rows| => rows[i].week);
    forall i | 0 <= i < |rows|
      ensures exists k :: 0 <= k <= 8 && rows[i].week == start + 7 * k
    {
      assert rows[i] in rows;
      assert rows[i].week in SupportTable.IssueWeeks(issues);
      var t :| t in issues && SupportTable.WeekOf(t) == rows[i].week;
      var j :| 0 <= j < |issues| && issues[j] == t;
      assert CreatedDays(issues)[j] == t.created;
      WindowCoversNineWeeks(today, t.created);
    }
    NineWeeksAtMost(weeks, start);
  }

  /**
   * Incident chart: the same nine-week bound for the series, and no more
   * entries than weeks that hold an incident.
   */
  lemma SeriesFitsWindow(today: Day, created: seq<Day>)
    requires InDateRange(today)
    requires InWindow(today, created)
    ensures var entries := WeeklySeries.WeeklySeriesOf(created);
      && (forall i :: 0 <= i < |entries| ==>
            exists k :: 0 <= k <= 8 && entries[i].week == WindowStart(today).date + 7 * k)
      && |entries| <= 9
  {
    var start := WindowStart(today).date;
    var entries := WeeklySeries.WeeklySeriesOf(created);
    var weeks := seq(|entries|, i requires 0 <= i < |entries| => entries[i].week);
    forall i | 0 <= i < |entries|
      ensures exists k :: 0 <= k <= 8 && entries[i].week == start + 7 * k
    {
      assert entries[i].week in WeeklySeries.CreatedWeeks(created);
      var d :| d in created && WeekStart(d) == entries[i].week;
      var j :| 0 <= j < |created| && created[j] == d;
      WindowCoversNineWeeks(today, d);
    }
    NineWeeksAtMost(weeks, start);
  }

  /**
   * The two charts count the same weeks alike: a support-table row's two
   * cells add up to what the weekly series gives for that week over the same
   * tickets.
   */
  lemma TableAgreesWithSeries(issues: seq<SupportTable.Issue>, i: int)
    requires |issues| > 0
    requires 0 <= i < |SupportTable.WeeklySupportTable(issues).rows|
    ensures var r := SupportTable.WeeklySupportTable(issues).rows[i];
      WeeklySeries.CountAt(WeeklySeries.WeeklyCounts(CreatedDays(issues)), r.week) == r.unresolved + r.resolved
  {
    var r := SupportTable.WeeklySupportTable(issues).rows[i];
    SupportTable.RowPartition(issues, i);
    WeeklySeries.WeeklyCountsCorrect(CreatedDays(issues));
    SameCount(issues, r.week);
  }

  /** Counting tickets of a week and counting their creation days of that week agree. */
  lemma {:induction false} SameCount(issues: seq<SupportTable.Issue>, w: Day)
    ensures WeeklySeries.Occurrences(CreatedDays(issues), w) == SupportTable.CountWeek(issues, w)
  {
    if issues != [] {
      SameCount(issues[1..], w);
      assert CreatedDays(issues)[1..] == CreatedDays(issues[1..]);
    }
  }
}
