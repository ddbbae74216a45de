/**
 * `weekly_series`: incidents counted per `W-SAT` week by `value_counts`
 * and put in week order by `sort_index`.  Only weeks that hold an incident
 * appear; weeks without one are not filled in with zero.
 */
module WeeklySeries {
  import opened Calendar

  /** One entry of the series: a week's start and how many incidents it holds. */
  datatype Entry = Entry(week: Day, count: nat)

  /** How many of the creation days fall into week `w` (the reference count). */
  function Occurrences(created: seq<Day>, w: Day): (c: nat)
    ensures c <= |created|
  {
    if created == [] then 0
    else
      var here := if WeekStart(created[0]) == w then 1 else 0;
      here + Occurrences(created[1..], w)
  }

  /** The weeks that hold at least one incident. */
  function CreatedWeeks(created: seq<Day>): set<Day> {
    set d | d in created :: WeekStart(d)
  }

  /** Entries in strictly ascending week order: sorted, no week twice. */
  predicate Ascending(entries: seq<Entry>) {
    forall i, j :: 0 <= i < j < |entries| ==> entries[i].week < entries[j].week
  }

  /** No entry has a zero count. */
  predicate Positive(entries: seq<Entry>) {
    forall i :: 0 <= i < |entries| ==> entries[i].count >= 1
  }

  function Keys(entries: seq<Entry>): set<Day> {
    set e | e in entries :: e.week
  }

  /** The count of week `w`, or 0 when the series has no entry for it. */
  function CountAt(entries: seq<Entry>, w: Day): nat {
    if entries == [] then 0
    else if entries[0].week == w then entries[0].count
    else CountAt(entries[1..], w)
  }

  /** The sum of the counts. */
  function Sum(entries: seq<Entry>): nat {
    if entries == [] then 0 else entries[0].count + Sum(entries[1..])
  }

  lemma KeysCons(e: Entry, entries: seq<Entry>)
    ensures Keys([e] + entries) == {e.week} + Keys(entries)
  {
  }

  lemma {:induction false} CountAtAbsent(entries: seq<Entry>, w: Day)
    requires w !in Keys(entries)
    ensures CountAt(entries, w) == 0
  {
    if entries != [] {
      assert entries[0] in entries;
      assert Keys(entries[1..]) <= Keys(entries) by {
        forall e | e in entries[1..] ensures e in entries { }
      }
      CountAtAbsent(entries[1..], w);
    }
  }

  /** An entry's count is read back by looking up its week. */
  lemma {:induction false} CountAtEntry(entries: seq<Entry>, i: int)
    requires Ascending(entries) && 0 <= i < |entries|
    ensures CountAt(entries, entries[i].week) == entries[i].count
  {
    if i > 0 {
      CountAtEntry(entries[1..], i - 1);
    }
  }

  /** An ascending series has as many entries as distinct weeks. */
  lemma {:induction false} AscendingSize(entries: seq<Entry>)
    requires Ascending(entries)
    ensures |Keys(entries)| == |entries|
  {
    if entries != [] {
      AscendingSize(entries[1..]);
      assert entries == [entries[0]] + entries[1..];
      KeysCons(entries[0], entries[1..]);
      assert entries[0].week !in Keys(entries[1..]) by {
        forall e | e in entries[1..] ensures e.week != entries[0].week {
          var j :| 0 <= j < |entries[1..]| && entries[1..][j] == e;
          assert e == entries[j + 1];
        }
      }
    }
  }

  /** Count one more incident of week `week`, keeping the weeks ascending. */
  function Add(entries: seq<Entry>, week: Day): (r: seq<Entry>)
    requires Ascending(entries)
    ensures Ascending(r)
    ensures |r| > 0 && r[0].week == if entries != [] && entries[0].week < week then entries[0].week else week
  {
    if entries == [] then [Entry(week, 1)]
    else if week < entries[0].week then [Entry(week, 1)] + entries
    else if week == entries[0].week then [entries[0].(count := entries[0].count + 1)] + entries[1..]
    else
      var tail := Add(entries[1..], week);
      var r := [entries[0]] + tail;
      assert Ascending(r) by {
        forall j | 0 < j < |r| ensures entries[0].week < r[j].week {
          assert r[j] == tail[j - 1];
        }
      }
      r
  }

  /** Adding an incident raises its week's count by one and no other. */
  lemma {:induction false} AddCount(entries: seq<Entry>, week: Day, w: Day)
    requires Ascending(entries)
    ensures CountAt(Add(entries, week), w) == CountAt(entries, w) + (if w == week then 1 else 0)
  {
    if entries == [] {
    } else if week < entries[0].week {
      if w == week {
        assert week !in Keys(entries);
        CountAtAbsent(entries, w);
      }
    } else if week == entries[0].week {
    } else {
      AddCount(entries[1..], week, w);
    }
  }

  /** Adding an incident adds its week to the keys and no other. */
  lemma {:induction false} AddKeys(entries: seq<Entry>, week: Day)
    requires Ascending(entries)
    ensures Keys(Add(entries, week)) == Keys(entries) + {week}
  {
    if entries == [] {
      KeysCons(Entry(week, 1), []);
    } else if week < entries[0].week {
      KeysCons(Entry(week, 1), entries);
    } else if week == entries[0].week {
      assert entries == [entries[0]] + entries[1..];
      KeysCons(entries[0], entries[1..]);
      KeysCons(entries[0].(count := entries[0].count + 1), entries[1..]);
    } else {
      assert entries == [entries[0]] + entries[1..];
      AddKeys(entries[1..], week);
      KeysCons(entries[0], entries[1..]);
      KeysCons(entries[0], Add(entries[1..], week));
    }
  }

  /** Adding an incident raises the sum by one and creates no zero count. */
  lemma {:induction false} AddSum(entries: seq<Entry>, week: Day)
    requires Ascending(entries) && Positive(entries)
    ensures Sum(Add(entries, week)) == Sum(entries) + 1
    ensures Positive(Add(entries, week))
  {
    if entries != [] && week > entries[0].week {
      AddSum(entries[1..], week);
      var r := Add(entries, week);
      assert r[1..] == Add(entries[1..], week);
    }
  }

  /** `weeks.value_counts().sort_index()` over the incidents' creation days. */
  function WeeklyCounts(created: seq<Day>): (entries: seq<Entry>)
    ensures Ascending(entries)
  {
    if created == [] then []
    else Add(WeeklyCounts(created[1..]), WeekStart(created[0]))
  }

  /**
   * What the series holds: an entry exactly for each week with an incident,
   * counting that week's incidents; no zero counts; the counts add up to the
   * number of incidents.
   */
  lemma {:induction false} WeeklyCountsCorrect(created: seq<Day>)
    ensures Keys(WeeklyCounts(created)) == CreatedWeeks(created)
    ensures forall w :: CountAt(WeeklyCounts(created), w) == Occurrences(created, w)
    ensures Positive(WeeklyCounts(created))
    ensures Sum(WeeklyCounts(created)) == |created|
  {
    if created != [] {
      var rest := WeeklyCounts(created[1..]);
      WeeklyCountsCorrect(created[1..]);
      AddKeys(rest, WeekStart(created[0]));
      AddSum(rest, WeekStart(created[0]));
      forall w ensures CountAt(WeeklyCounts(created), w) == Occurrences(created, w) {
        AddCount(rest, WeekStart(created[0]), w);
      }
      assert created == [created[0]] + created[1..];
      assert forall d :: d in created <==> d == created[0] || d in created[1..];
    }
  }

  /** `weekly_series`, with what its entries mean. */
  function WeeklySeriesOf(created: seq<Day>): (entries: seq<Entry>)
    ensures Ascending(entries) && Positive(entries)
    ensures |entries| == |CreatedWeeks(created)|
    ensures forall i :: 0 <= i < |entries| ==>
      Weekday(entries[i].week) == Sunday && entries[i].count == Occurrences(created, entries[i].week)
    ensures forall w :: w in CreatedWeeks(created) <==> exists i :: 0 <= i < |entries| && entries[i].week == w
    ensures Sum(entries) == |created|
  {
    var entries := WeeklyCounts(created);
    WeeklyCountsCorrect(created);
    AscendingSize(entries);
    assert forall i :: 0 <= i < |entries| ==> entries[i].count == Occurrences(created, entries[i].week) by {
      forall i | 0 <= i < |entries| ensures entries[i].count == Occurrences(created, entries[i].week) {
        CountAtEntry(entries, i);
      }
    }
    assert forall w :: w in Keys(entries) <==> exists i :: 0 <= i < |entries| && entries[i].week == w by {
      forall w ensures w in Keys(entries) <==> exists i :: 0 <= i < |entries| && entries[i].week == w {
        if w in Keys(entries) {
          var e :| e in entries && e.week == w;
          var i :| 0 <= i < |entries| && entries[i] == e;
        }
      }
    }
    assert forall i :: 0 <= i < |entries| ==> Weekday(entries[i].week) == Sunday by {
      forall i | 0 <= i < |entries| ensures Weekday(entries[i].week) == Sunday {
        assert entries[i] in entries;
        assert entries[i].week in CreatedWeeks(created);
      }
    }
    entries
  }

  /**
   * Incidents on 2024-01-02 (day 738887) and 2024-01-17 (day 738902) only:
   * the series has the weeks starting 2023-12-31 and 2024-01-14 and no entry
   * for the empty week between them.
   */
  lemma NoZeroFillExample()
    ensures WeeklySeriesOf([738887, 738902]) == [Entry(738885, 1), Entry(738899, 1)]
    ensures CountAt(WeeklySeriesOf([738887, 738902]), 738892) == 0
  {
  }
}
