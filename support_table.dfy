/**
 * `weekly_support_table`: support tickets counted per `W-SAT` week and per
 * resolved flag, one row per week that has a ticket, rows in ascending week
 * order, a missing (week, flag) cell filled with 0, and the columns
 * "Unresolved" then "Resolved", each present only when some ticket has that
 * flag (pandas' `unstack` makes a column per flag value it sees).
 */
module SupportTable {
  import opened Calendar
  import opened Status

  /** A ticket as fetched: the UTC calendar day it was created and its status name. */
  datatype Issue = Issue(created: Day, status: string)

  /** One table row: the week's start and its two cells. */
  datatype Row = Row(week: Day, unresolved: nat, resolved: nat)

  /** The two column labels that `rename` gives to the flags False and True. */
  datatype Column = Unresolved | Resolved

  datatype Table = Table(columns: seq<Column>, rows: seq<Row>)

  /** The week bucket of a ticket (the `week` column). */
  function WeekOf(i: Issue): Day {
    WeekStart(i.created)
  }

  /** The value of a row in the column of flag `resolved`. */
  function Cell(r: Row, resolved: bool): nat {
    if resolved then r.resolved else r.unresolved
  }

  function RowTotal(r: Row): nat {
    r.unresolved + r.resolved
  }

  // ---------------------------------------------------------------- reference counts

  /** How many tickets fall into week `w` with flag `resolved` (the group size of `groupby`). */
  function CountCell(issues: seq<Issue>, w: Day, resolved: bool): (c: nat)
    ensures c <= |issues|
  {
    if issues == [] then 0
    else
      var here := if WeekOf(issues[0]) == w && IsResolved(issues[0].status) == resolved then 1 else 0;
      here + CountCell(issues[1..], w, resolved)
  }

  /** How many tickets fall into week `w`. */
  function CountWeek(issues: seq<Issue>, w: Day): (c: nat)
    ensures c <= |issues|
  {
    if issues == [] then 0
    else
      var here := if WeekOf(issues[0]) == w then 1 else 0;
      here + CountWeek(issues[1..], w)
  }

  /** The weeks that hold at least one ticket. */
  function IssueWeeks(issues: seq<Issue>): set<Day> {
    set i | i in issues :: WeekOf(i)
  }

  /** Whether some ticket has flag `resolved`. */
  predicate HasFlag(issues: seq<Issue>, resolved: bool) {
    exists i :: i in issues && IsResolved(i.status) == resolved
  }

  // ---------------------------------------------------------------- rows

  /** Rows in strictly ascending week order (`sort_index`, one row per week). */
  predicate Ascending(rows: seq<Row>) {
    forall i, j :: 0 <= i < j < |rows| ==> rows[i].week < rows[j].week
  }

  /** Every row holds at least one ticket. */
  predicate NonEmptyRows(rows: seq<Row>) {
    forall i :: 0 <= i < |rows| ==> RowTotal(rows[i]) > 0
  }

  function Weeks(rows: seq<Row>): set<Day> {
    set r | r in rows :: r.week
  }

  /** The cell of week `w` and flag `resolved`: the first row of week `w`, or 0 when there is none. */
  function Lookup(rows: seq<Row>, w: Day, resolved: bool): nat {
    if rows == [] then 0
    else if rows[0].week == w then Cell(rows[0], resolved)
    else Lookup(rows[1..], w, resolved)
  }

  /** The sum of all cells. */
  function GrandTotal(rows: seq<Row>): nat {
    if rows == [] then 0 else RowTotal(rows[0]) + GrandTotal(rows[1..])
  }

  lemma {:induction false} LookupAbsent(rows: seq<Row>, w: Day, resolved: bool)
    requires w !in Weeks(rows)
    ensures Lookup(rows, w, resolved) == 0
  {
    if rows != [] {
      assert rows[0] in rows;
      assert Weeks(rows[1..]) <= Weeks(rows) by {
        forall r | r in rows[1..] ensures r in rows { }
      }
      LookupAbsent(rows[1..], w, resolved);
    }
  }

  lemma WeeksCons(r: Row, rows: seq<Row>)
    ensures Weeks([r] + rows) == {r.week} + Weeks(rows)
  {
  }

  /** A new row for the first ticket of its week. */
  function NewRow(week: Day, resolved: bool): (r: Row)
    ensures RowTotal(r) == 1 && Cell(r, resolved) == 1 && Cell(r, !resolved) == 0
  {
    if resolved then Row(week, 0, 1) else Row(week, 1, 0)
  }

  /** The row with one more ticket in the cell of flag `resolved`. */
  function Bump(r: Row, resolved: bool): (r': Row)
    ensures r'.week == r.week && RowTotal(r') == RowTotal(r) + 1
    ensures Cell(r', resolved) == Cell(r, resolved) + 1 && Cell(r', !resolved) == Cell(r, !resolved)
  {
    if resolved then r.(resolved := r.resolved + 1) else r.(unresolved := r.unresolved + 1)
  }

  /**
   * Count one more ticket of week `week` and flag `resolved`: a new row for
   * a week not yet in the table, placed so that the weeks stay ascending, or
   * one more in the cell of an existing row.
   */
  function Tally(rows: seq<Row>, week: Day, resolved: bool): (r: seq<Row>)
    requires Ascending(rows)
    ensures Ascending(r)
    ensures |r| > 0 && r[0].week == if rows != [] && rows[0].week < week then rows[0].week else week
  {
    if rows == [] then [NewRow(week, resolved)]
    else if week < rows[0].week then [NewRow(week, resolved)] + rows
    else if week == rows[0].week then [Bump(rows[0], resolved)] + rows[1..]
    else
      var tail := Tally(rows[1..], week, resolved);
      var r := [rows[0]] + tail;
      assert Ascending(r) by {
        forall j | 0 < j < |r| ensures rows[0].week < r[j].week {
          assert r[j] == tail[j - 1];
        }
      }
      r
  }

  /** Tallying a ticket adds its week to the set of weeks and no other. */
  lemma {:induction false} TallyWeeks(rows: seq<Row>, week: Day, resolved: bool)
    requires Ascending(rows)
    ensures Weeks(Tally(rows, week, resolved)) == Weeks(rows) + {week}
  {
    var r := Tally(rows, week, resolved);
    if rows == [] {
      WeeksCons(NewRow(week, resolved), []);
    } else if week < rows[0].week {
      WeeksCons(NewRow(week, resolved), rows);
    } else if week == rows[0].week {
      assert rows == [rows[0]] + rows[1..];
      WeeksCons(rows[0], rows[1..]);
      WeeksCons(Bump(rows[0], resolved), rows[1..]);
    } else {
      assert rows == [rows[0]] + rows[1..];
      TallyWeeks(rows[1..], week, resolved);
      WeeksCons(rows[0], rows[1..]);
      WeeksCons(rows[0], Tally(rows[1..], week, resolved));
    }
  }

  /** Tallying a ticket adds one to its own cell and leaves every other cell as it was. */
  lemma {:induction false} TallyLookup(rows: seq<Row>, week: Day, resolved: bool, w: Day, f: bool)
    requires Ascending(rows)
    ensures Lookup(Tally(rows, week, resolved), w, f)
      == Lookup(rows, w, f) + (if w == week && f == resolved then 1 else 0)
  {
    if rows == [] {
    } else if week < rows[0].week {
      if w == week {
        assert week !in Weeks(rows);
        LookupAbsent(rows, w, f);
      }
    } else if week == rows[0].week {
    } else {
      TallyLookup(rows[1..], week, resolved, w, f);
    }
  }

  /** Tallying a ticket adds one to the grand total. */
  lemma {:induction false} TallyTotal(rows: seq<Row>, week: Day, resolved: bool)
    requires Ascending(rows)
    ensures GrandTotal(Tally(rows, week, resolved)) == GrandTotal(rows) + 1
  {
    if rows != [] && week > rows[0].week {
      TallyTotal(rows[1..], week, resolved);
      var r := Tally(rows, week, resolved);
      assert r[1..] == Tally(rows[1..], week, resolved);
    }
  }

  /** Tallying never creates an empty row. */
  lemma {:induction false} TallyNonEmpty(rows: seq<Row>, week: Day, resolved: bool)
    requires Ascending(rows) && NonEmptyRows(rows)
    ensures NonEmptyRows(Tally(rows, week, resolved))
  {
    if rows != [] && week > rows[0].week {
      TallyNonEmpty(rows[1..], week, resolved);
      var r := Tally(rows, week, resolved);
      assert r[1..] == Tally(rows[1..], week, resolved);
    }
  }

  lemma {:induction false} LookupAbsentAll(rows: seq<Row>, w: Day)
    requires w !in Weeks(rows)
    ensures Lookup(rows, w, true) == 0 && Lookup(rows, w, false) == 0
  {
    LookupAbsent(rows, w, true);
    LookupAbsent(rows, w, false);
  }

  /** A row's cells are read back by looking up its week. */
  lemma {:induction false} LookupRow(rows: seq<Row>, i: int, f: bool)
    requires Ascending(rows) && 0 <= i < |rows|
    ensures Lookup(rows, rows[i].week, f) == Cell(rows[i], f)
  {
    if i > 0 {
      LookupRow(rows[1..], i - 1, f);
    }
  }

  // ---------------------------------------------------------------- groupby / size / unstack

  /** The (week, resolved) group sizes of the tickets, one ascending row per week. */
  function Group(issues: seq<Issue>): (rows: seq<Row>)
    ensures Ascending(rows)
  {
    if issues == [] then []
    else Tally(Group(issues[1..]), WeekOf(issues[0]), IsResolved(issues[0].status))
  }

  /** Every cell, present or filled with 0, is the number of tickets of its week and flag. */
  lemma {:induction false} GroupCounts(issues: seq<Issue>, w: Day, f: bool)
    ensures Lookup(Group(issues), w, f) == CountCell(issues, w, f)
  {
    if issues != [] {
      GroupCounts(issues[1..], w, f);
      TallyLookup(Group(issues[1..]), WeekOf(issues[0]), IsResolved(issues[0].status), w, f);
    }
  }

  /** There is a row for a week exactly when some ticket falls into it. */
  lemma {:induction false} GroupWeeks(issues: seq<Issue>)
    ensures Weeks(Group(issues)) == IssueWeeks(issues)
  {
    if issues != [] {
      GroupWeeks(issues[1..]);
      TallyWeeks(Group(issues[1..]), WeekOf(issues[0]), IsResolved(issues[0].status));
      assert issues == [issues[0]] + issues[1..];
      assert forall i :: i in issues <==> i == issues[0] || i in issues[1..];
    }
  }

  /** The cells add up to the number of tickets. */
  lemma {:induction false} GroupTotal(issues: seq<Issue>)
    ensures GrandTotal(Group(issues)) == |issues|
  {
    if issues != [] {
      GroupTotal(issues[1..]);
      TallyTotal(Group(issues[1..]), WeekOf(issues[0]), IsResolved(issues[0].status));
    }
  }

  /** No row is all zeros. */
  lemma {:induction false} GroupNonEmpty(issues: seq<Issue>)
    ensures NonEmptyRows(Group(issues))
  {
    if issues != [] {
      GroupNonEmpty(issues[1..]);
      TallyNonEmpty(Group(issues[1..]), WeekOf(issues[0]), IsResolved(issues[0].status));
    }
  }

  /** The two flags split the tickets of a week between them. */
  lemma {:induction false} CellsPartitionWeek(issues: seq<Issue>, w: Day)
    ensures CountCell(issues, w, false) + CountCell(issues, w, true) == CountWeek(issues, w)
  {
    if issues != [] {
      CellsPartitionWeek(issues[1..], w);
    }
  }

  /** A flag no ticket has counts 0 in every week. */
  lemma {:induction false} CountCellWithoutFlag(issues: seq<Issue>, w: Day, f: bool)
    requires !HasFlag(issues, f)
    ensures CountCell(issues, w, f) == 0
  {
    if issues != [] {
      assert issues[0] in issues;
      assert !HasFlag(issues[1..], f) by {
        forall i | i in issues[1..] ensures IsResolved(i.status) != f {
          assert i in issues;
        }
      }
      CountCellWithoutFlag(issues[1..], w, f);
    }
  }

  /** The columns `unstack` creates: one per flag that occurs, False before True. */
  function Columns(issues: seq<Issue>): (cols: seq<Column>)
    requires |issues| > 0
    ensures Unresolved in cols <==> HasFlag(issues, false)
    ensures Resolved in cols <==> HasFlag(issues, true)
    ensures cols == [Unresolved] || cols == [Resolved] || cols == [Unresolved, Resolved]
  {
    assert issues[0] in issues;
    (if HasFlag(issues, false) then [Unresolved] else []) + (if HasFlag(issues, true) then [Resolved] else [])
  }

  /**
   * `weekly_support_table`.  The source fails inside pandas on an empty
   * ticket list (the frame has no `created` column), hence the requires.
   */
  function WeeklySupportTable(issues: seq<Issue>): (t: Table)
    requires |issues| > 0
    ensures Ascending(t.rows) && NonEmptyRows(t.rows)
    ensures Weeks(t.rows) == IssueWeeks(issues)
    ensures forall i :: 0 <= i < |t.rows| ==> Weekday(t.rows[i].week) == Sunday
    ensures forall i :: 0 <= i < |t.rows| ==>
      t.rows[i].unresolved == CountCell(issues, t.rows[i].week, false) &&
      t.rows[i].resolved == CountCell(issues, t.rows[i].week, true)
    ensures GrandTotal(t.rows) == |issues|
    ensures Unresolved in t.columns <==> HasFlag(issues, false)
    ensures Resolved in t.columns <==> HasFlag(issues, true)
    ensures t.columns == [Unresolved] || t.columns == [Resolved] || t.columns == [Unresolved, Resolved]
  {
    var rows := Group(issues);
    GroupWeeks(issues);
    GroupTotal(issues);
    GroupNonEmpty(issues);
    assert forall i :: 0 <= i < |rows| ==>
      rows[i].unresolved == CountCell(issues, rows[i].week, false) &&
      rows[i].resolved == CountCell(issues, rows[i].week, true)
    by {
      forall i | 0 <= i < |rows|
        ensures rows[i].unresolved == CountCell(issues, rows[i].week, false)
        ensures rows[i].resolved == CountCell(issues, rows[i].week, true)
      {
        LookupRow(rows, i, false);
        LookupRow(rows, i, true);
        GroupCounts(issues, rows[i].week, false);
        GroupCounts(issues, rows[i].week, true);
      }
    }
    assert forall i :: 0 <= i < |rows| ==> Weekday(rows[i].week) == Sunday by {
      forall i | 0 <= i < |rows| ensures Weekday(rows[i].week) == Sunday {
        assert rows[i] in rows;
        assert rows[i].week in IssueWeeks(issues);
      }
    }
    Table(Columns(issues), rows)
  }

  /** Each row's two cells add up to the number of tickets created in its week. */
  lemma RowPartition(issues: seq<Issue>, i: int)
    requires |issues| > 0
    requires 0 <= i < |WeeklySupportTable(issues).rows|
    ensures var r := WeeklySupportTable(issues).rows[i];
      r.unresolved + r.resolved == CountWeek(issues, r.week) >= 1
  {
    var r := WeeklySupportTable(issues).rows[i];
    CellsPartitionWeek(issues, r.week);
  }

  /** A week without a row holds no ticket: its (missing) cells are 0. */
  lemma MissingWeekIsEmpty(issues: seq<Issue>, w: Day)
    requires |issues| > 0
    requires w !in Weeks(WeeklySupportTable(issues).rows)
    ensures CountWeek(issues, w) == 0
    ensures Lookup(WeeklySupportTable(issues).rows, w, false) == 0
    ensures Lookup(WeeklySupportTable(issues).rows, w, true) == 0
  {
    LookupAbsentAll(WeeklySupportTable(issues).rows, w);
    GroupCounts(issues, w, false);
    GroupCounts(issues, w, true);
    CellsPartitionWeek(issues, w);
  }

  /** A column that is missing would have held only zeros. */
  lemma MissingColumnIsZero(issues: seq<Issue>, f: bool, i: int)
    requires |issues| > 0
    requires (if f then Resolved else Unresolved) !in WeeklySupportTable(issues).columns
    requires 0 <= i < |WeeklySupportTable(issues).rows|
    ensures Cell(WeeklySupportTable(issues).rows[i], f) == 0
  {
    CountCellWithoutFlag(issues, WeeklySupportTable(issues).rows[i].week, f);
  }

  /**
   * Two tickets created on Tuesday 2024-01-02 (day 738887), one "Done" and
   * one "Open", and a "Done" ticket of Wednesday 2024-01-10 (day 738895): the
   * rows are the weeks starting Sunday 2023-12-31 (day 738885) and Sunday
   * 2024-01-07 (day 738892).
   */
  lemma SupportTableExample()
    ensures WeeklySupportTable([Issue(738887, "Done"), Issue(738887, "Open"), Issue(738895, "Done")])
      == Table([Unresolved, Resolved], [Row(738885, 1, 1), Row(738892, 0, 1)])
  {
    var issues := [Issue(738887, "Done"), Issue(738887, "Open"), Issue(738895, "Done")];
    ResolvedIff("Done");
    ResolvedIff("Open");
    assert Weekday(738887) == 1 && Weekday(738895) == 2;
    assert WeekOf(issues[0]) == 738885 && WeekOf(issues[1]) == 738885 && WeekOf(issues[2]) == 738892;
    assert issues[1..] == [issues[1], issues[2]] && issues[2..] == [issues[2]];
    assert Group(issues[2..]) == [Row(738892, 0, 1)];
    assert Group(issues[1..]) == [Row(738885, 1, 0), Row(738892, 0, 1)];
    assert Group(issues) == [Row(738885, 1, 1), Row(738892, 0, 1)];
    assert issues[1] in issues && issues[0] in issues;
    assert Columns(issues) == [Unresolved, Resolved];
  }
}
