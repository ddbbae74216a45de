# Weekly issue charts: week arithmetic and weekly counts

A Dafny model of the computational core of `generate_graphs.py`, a batch
job that charts support tickets and incidents per calendar week.  It
models:

- the week-boundary helpers `monday_weeks_ago` and `sunday_weeks_ago`, and
  the reporting-window start `sunday_weeks_ago(8)` in `main`;
- the pandas `W-SAT` week bucket: a week ending on Saturday, keyed by the
  Sunday that starts it;
- the "resolved" flag `status.name.lower() == "done"`;
- `weekly_support_table`: tickets counted per (week, resolved) cell;
- `weekly_series`: incidents counted per week.

Days are day ordinals as Python's `date.toordinal()` numbers them
(0001-01-01 is day 1, a Monday), and `weekday(d)` is `(d - 1) % 7`.  The
current date is a parameter `today`.  A ticket is its UTC creation day and
its status name.  A table is a list of rows `(week, unresolved, resolved)`
with its column list.  A series is a list of `(week, count)` entries.

Files:

- `calendar.dfy`: day ordinals, weekday, the `W-SAT` week start.
- `week_bounds.dfy`: the two helpers and the window start.
- `status.dfy`: the resolved flag.
- `support_table.dfy`: the support table.
- `weekly_series.dfy`: the incident series.
- `report.dfy`: how the window and the two tables fit together in `main`.

Notes on the code as written:

- The module docstring (line 5) speaks of Monday–Sunday weeks.  Both
  aggregations bucket by `W-SAT` periods (lines 59, 75), which run Sunday to
  Saturday.  The model follows the code.
- `weekly_series` does not add zero entries for weeks without incidents
  (line 76).  `WeeklySeries.NoZeroFillExample` shows a gap week with no entry.
- For the same `n`, `sunday_weeks_ago` is the day before `monday_weeks_ago`,
  except on a Sunday, when it is six days after it
  (`WeekBounds.MondaySundayRelation`).
- `sunday_weeks_ago` raises OverflowError on the first six days of the
  calendar, since the Sunday before them is not a Python date.  Both helpers
  raise it whenever the result leaves the range of `date`.

## Model

| member | source | states |
|---|---|---|
| `Calendar.Weekday` | generate_graphs.py:45 | a weekday is in 0..6, and day 1 (0001-01-01) is a Monday |
| `Calendar.WeekStart` | generate_graphs.py:59 | the `W-SAT` week of a day starts on a Sunday `s` with `s <= d < s + 7`; the distance back is the `days_since_sunday` formula of line 46 |
| `Calendar.WeekStartUnique` | generate_graphs.py:75 | the Sunday-started week holding a day is unique |
| `Calendar.WeekStartIdempotent` | generate_graphs.py:59 | bucketing a week start again gives the same week |
| `Calendar.WeekStartMonotone` | generate_graphs.py:59 | later days never fall into earlier weeks |
| `Calendar.WeekStartShift` | generate_graphs.py:75 | moving a day by `k` weeks moves its bucket by `k` weeks |
| `WeekBounds.MondayWeeksAgo` | generate_graphs.py:35-39 | the result is a Monday lying `7 * n` plus 0 to 6 days before today; OverflowError exactly when that Monday is not a Python date |
| `WeekBounds.SundayWeeksAgo` | generate_graphs.py:42-48 | the result is a Sunday lying `7 * n` plus 0 to 6 days before today; OverflowError on the first six calendar days and when that Sunday is not a Python date |
| `WeekBounds.WindowStart` | generate_graphs.py:138 | the window start is a Sunday 56 to 62 days before today |
| `WeekBounds.MondayThisWeek` | generate_graphs.py:37-38 | for `n = 0` the Monday always exists and is today or one of the six days before |
| `WeekBounds.MondayStep` | generate_graphs.py:39 | `monday_weeks_ago(n)` is `monday_weeks_ago(0) - 7 * n` |
| `WeekBounds.SundayThisWeek` | generate_graphs.py:44-47 | from day 7 on, `sunday_weeks_ago(0)` is the `W-SAT` week start of today: today on a Sunday, else the latest earlier Sunday |
| `WeekBounds.SundayStep` | generate_graphs.py:48 | `sunday_weeks_ago(n)` is `sunday_weeks_ago(0) - 7 * n` and the week start of today minus `7 * n` |
| `WeekBounds.MondaySundayRelation` | generate_graphs.py:35-48 | for the same `n` the Sunday is the Monday minus 1, or plus 6 when today is a Sunday |
| `WeekBounds.WindowStartDefined` | generate_graphs.py:138 | the window start exists exactly when this week's Sunday is day 57 or later, so always from day 63 on |
| `WeekBounds.WindowCoversNineWeeks` | generate_graphs.py:138 | today's week starts 56 days after the window start; every day from the start to today falls into week `start + 7 * k` with `k` in 0..8 |
| `WeekBounds.WednesdayExample` | generate_graphs.py:35-48 | on Wednesday 2024-01-17 the Monday is 2024-01-15 of the same week and the Sunday is 2024-01-14 |
| `Status.ResolvedIff` | generate_graphs.py:53 | a status is resolved exactly when it is four letters spelling "done" in any case; nothing is trimmed and no other status counts |
| `Status.ResolvedIgnoresCase` | generate_graphs.py:53 | statuses differing only in letter case get the same flag |
| `Status.StatusExamples` | generate_graphs.py:53 | "Done", "DONE" and "done" are resolved; "Closed", "In Progress" and "Done " are not |
| `SupportTable.Tally` | generate_graphs.py:61-66 | adding a ticket keeps the rows in strictly ascending week order |
| `SupportTable.TallyLookup` | generate_graphs.py:62-64 | adding a ticket raises its own (week, flag) cell by one and no other |
| `SupportTable.Group` | generate_graphs.py:61-66 | the grouped rows are in strictly ascending week order |
| `SupportTable.GroupCounts` | generate_graphs.py:62-64 | every (week, flag) cell, present or filled with 0, is the number of tickets of that week and flag |
| `SupportTable.GroupWeeks` | generate_graphs.py:62-66 | there is a row for a week exactly when some ticket falls into it |
| `SupportTable.GroupTotal` | generate_graphs.py:62-64 | the cells add up to the number of tickets |
| `SupportTable.GroupNonEmpty` | generate_graphs.py:62-64 | no row is all zeros |
| `SupportTable.CellsPartitionWeek` | generate_graphs.py:52-54 | the two flags split the tickets of each week |
| `SupportTable.Columns` | generate_graphs.py:64-65 | a column exists exactly for each flag some ticket has; "Unresolved" comes before "Resolved" |
| `SupportTable.WeeklySupportTable` | generate_graphs.py:51-70 | ascending Sunday-keyed rows, one per week with a ticket; each cell is the count of its week and flag; the cells sum to the number of tickets; columns as in `Columns` |
| `SupportTable.RowPartition` | generate_graphs.py:61-64 | Resolved plus Unresolved of a row is the number of tickets created in its week, at least 1 |
| `SupportTable.MissingWeekIsEmpty` | generate_graphs.py:64 | a week without a row holds no ticket and reads as 0 in both columns |
| `SupportTable.MissingColumnIsZero` | generate_graphs.py:64-65 | a column that is absent would have held only zeros |
| `SupportTable.SupportTableExample` | generate_graphs.py:51-70 | two tickets of 2024-01-02 ("Done", "Open") and a "Done" one of 2024-01-10 give rows 2023-12-31 → (1, 1) and 2024-01-07 → (0, 1) |
| `WeeklySeries.Add` | generate_graphs.py:76 | adding an incident keeps the entries in strictly ascending week order |
| `WeeklySeries.AddCount` | generate_graphs.py:76 | adding an incident raises its week's count by one and no other |
| `WeeklySeries.WeeklyCounts` | generate_graphs.py:75-76 | the counted entries are in strictly ascending week order |
| `WeeklySeries.WeeklyCountsCorrect` | generate_graphs.py:75-76 | an entry exists exactly for each week with an incident; each count is that week's number of incidents; no count is 0; the counts sum to the number of incidents |
| `WeeklySeries.AscendingSize` | generate_graphs.py:76 | an ascending series has one entry per distinct week |
| `WeeklySeries.WeeklySeriesOf` | generate_graphs.py:73-76 | ascending Sunday-keyed entries, one per week with an incident, counts at least 1 and equal to the week's incidents, summing to the number of incidents |
| `WeeklySeries.NoZeroFillExample` | generate_graphs.py:76 | incidents in the first and third of three weeks give two entries and none for the middle week |
| `Report.NineWeeksAtMost` | generate_graphs.py:138 | at most nine ascending Sundays fit into the 56 days after a Sunday |
| `Report.SupportTableFitsWindow` | generate_graphs.py:138-141 | with every ticket inside the window, each row's week is `start + 7 * k` with `k` in 0..8, so there are at most nine rows |
| `Report.SeriesFitsWindow` | generate_graphs.py:138-142 | the same nine-week bound for the incident series |
| `Report.TableAgreesWithSeries` | generate_graphs.py:51-76 | over the same tickets, a support row's two cells add up to the series count of its week |

## Left out

- The tracker client and its queries (lines 29-32, 108-114, 127-132): network I/O through a foreign library.  The report lemmas assume that every returned ticket's UTC creation day lies between the window start and today.  The tracker applies `created >= start` in its own time zone, which the model does not see.
- Building the query strings with `isoformat()` (lines 109, 127-129, 139): library date formatting, only passed to the tracker.
- `save_fig` and all chart rendering, colours and tick labels (lines 79-105, 116-121, 134): image output through a foreign library.
- Timestamp parsing and the UTC conversion `pd.to_datetime(..., utc=True).tz_convert(None)` (lines 58, 74): the UTC calendar day of creation is an input.
- `date.today()` (lines 37, 44): a clock read, made the parameter `today`.  It is a local date.
- The range of pandas timestamps (years 1677 to 2262): week starts are unbounded day numbers.
- The commented-out work-type chart, preview and chat upload (lines 144-189), the command line and the environment loading (lines 19-23, 192-197): dead code or I/O.
- `weekly_support_table` on an empty ticket list fails inside pandas (the frame has no `created` column).  `SupportTable.WeeklySupportTable` requires a non-empty list instead of modelling that error.
- `Status.LowerChar` lower-cases ASCII letters only, where `str.lower()` covers all of Unicode.  No non-ASCII character lower-cases to `d`, `o`, `n` or `e`, so the resolved flag comes out the same.
- A ticket without a status makes `i.fields.status.name` raise.  The model gives every ticket a status string.
- The `timedelta(weeks=n)` overflow for `|7 * n|` above 999999999 is folded into OverflowError.  Such an `n` always leaves the date range anyway.
