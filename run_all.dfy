/** `run_all.py`: for each of the windows 7, 14 and 30 days, filter the posts,
    build the two grouped tables behind the four charts and name the files
    the charts are written to. */
module RunAll {
  import opened Recency
  import opened Columns
  import opened Aggregation
  import opened FileNames

  /** The windows the script runs with, in order. */
  const DriverWindows: seq<int> := [7, 14, 30]

  /** Selects the pair-table rows of one group. */
  function InGroup(g: string): Row -> bool {
    (r: Row) => r.groupName == g
  }

  /** The number of rows of group `g` is the multiplicity of `g` in the
      `group_name` column. */
  lemma {:induction false} CountWhereGroup(rows: seq<Row>, g: string)
    ensures CountWhere(rows, InGroup(g)) == multiset(GroupsOf(rows))[g]
  {
    if rows != [] {
      var init := rows[..|rows| - 1];
      CountWhereGroup(init, g);
      assert GroupsOf(rows) == GroupsOf(init) + [rows[|rows| - 1].groupName];
    }
  }

  /** Each group's total (the pie and bar table) is the sum of that group's
      counts in the (group, timestamp) table (the heatmap and scatter table). */
  lemma GroupTotalIsSumOfBuckets(rows: seq<Row>, g: string)
    ensures multiset(GroupsOf(rows))[g] == SumWhere(CountBy(rows, false), InGroup(g))
  {
    CountBySumWhere(rows, false, InGroup(g));
    CountWhereGroup(rows, g);
  }

  /** `run_data_viz(days_filter, data)` with the clock reading passed in:
      the pair table sorted by descending count, the per-group totals sorted
      by ascending count, and the four file names written. */
  method RunDataViz(daysFilter: int, data: seq<Post>, now: Instant)
    returns (pairTable: seq<Tallied<Row>>, groupTotals: seq<Tallied<string>>, fileNames: seq<string>)
    ensures Tabulates(pairTable, RowsOf(FilterRecent(data, now, daysFilter)))
    ensures Sorted(pairTable, false)
    ensures Total(pairTable) == |FilterRecent(data, now, daysFilter)|
    ensures Tabulates(groupTotals, GroupsOf(RowsOf(FilterRecent(data, now, daysFilter))))
    ensures Sorted(groupTotals, true)
    ensures forall x :: x in groupTotals ==> x.count == SumWhere(pairTable, InGroup(x.key))
    ensures fileNames == ChartFiles(daysFilter)
  {
    var filtered := FilterRecent(data, now, daysFilter);
    var df := FrameOf(filtered);
    pairTable := CountBy(df, false);
    groupTotals := CountBy(GroupsOf(df), true);
    forall x | x in groupTotals
      ensures x.count == SumWhere(pairTable, InGroup(x.key))
    {
      GroupTotalIsSumOfBuckets(df, x.key);
    }
    fileNames := ChartFiles(daysFilter);
  }

  /** The files one run writes, in order: heatmap, scatter, pie, bar. No two
      of them share a name. */
  function ChartFiles(days: int): (files: seq<string>)
    ensures |files| == 4
    ensures forall i, j :: 0 <= i < j < |files| ==> files[i] != files[j]
  {
    var files := [FileName(DensityHeatmap, days), FileName(ScatterPlot, days), FileName(PieChart, days), FileName(BarChart, days)];
    // the four prefixes already differ in their first letter
    assert files[0][0] == 'd' && files[1][0] == 's' && files[2][0] == 'p' && files[3][0] == 'b';
    files
  }

  /** The script's three calls. Each `run_data_viz` reads the clock itself,
      so each run takes its own reading. The files are the three runs' chart
      files in order, and every name is distinct, so no run overwrites another
      run's chart. */
  method RunAll(data: seq<Post>, nowWeek: Instant, nowFortnight: Instant, nowMonth: Instant)
    returns (written: seq<string>)
    ensures written == ChartFiles(DriverWindows[0]) + ChartFiles(DriverWindows[1]) + ChartFiles(DriverWindows[2])
    ensures |written| == 4 * |DriverWindows|
    ensures forall i, j :: 0 <= i < j < |written| ==> written[i] != written[j]
  {
    var _, _, week := RunDataViz(DriverWindows[0], data, nowWeek);
    var _, _, fortnight := RunDataViz(DriverWindows[1], data, nowFortnight);
    var _, _, month := RunDataViz(DriverWindows[2], data, nowMonth);
    written := week + fortnight + month;
    DriverFilesDistinct(written);
  }

  /** The twelve names the three runs write are pairwise different. */
  lemma DriverFilesDistinct(names: seq<string>)
    requires names == ChartFiles(DriverWindows[0]) + ChartFiles(DriverWindows[1]) + ChartFiles(DriverWindows[2])
    ensures |names| == 4 * |DriverWindows|
    ensures forall i, j :: 0 <= i < j < |names| ==> names[i] != names[j]
  {
    forall i | 0 <= i < |names|
      ensures names[i] == FileName(KindAt(Offset(i)), DriverWindows[Block(i)])
    {
      if i < 4 {
        assert names[i] == ChartFiles(DriverWindows[0])[i];
      } else if i < 8 {
        assert names[i] == ChartFiles(DriverWindows[1])[i - 4];
      } else {
        assert names[i] == ChartFiles(DriverWindows[2])[i - 8];
      }
    }
    forall i, j | 0 <= i < j < |names|
      ensures names[i] != names[j]
    {
      if names[i] == names[j] {
        FileNameInjective(KindAt(Offset(i)), DriverWindows[Block(i)], KindAt(Offset(j)), DriverWindows[Block(j)]);
      }
    }
  }

  /** Which of the three runs wrote position `i` of the file list. */
  function Block(i: nat): (b: nat)
    requires i < 12
    ensures b < 3 && 4 * b <= i < 4 * b + 4
  {
    if i < 4 then 0 else if i < 8 then 1 else 2
  }

  /** Which chart of its run position `i` of the file list is. */
  function Offset(i: nat): (o: nat)
    requires i < 12
    ensures o < 4
  {
    i - 4 * Block(i)
  }

  /** The chart written in position `i` of one run. */
  function KindAt(i: nat): ChartKind
    requires i < 4
  {
    [DensityHeatmap, ScatterPlot, PieChart, BarChart][i]
  }

  /** The driver's windows only widen: the 7-day posts are among the 14-day
      posts, which are among the 30-day posts, in the same order, provided
      the clock advances at most 7 days between the first two readings and
      at most 16 days between the last two. */
  lemma DriverWindowsNest(data: seq<Post>, nowWeek: Instant, nowFortnight: Instant, nowMonth: Instant)
    requires nowFortnight - nowWeek <= 7 * MicrosPerDay
    requires nowMonth - nowFortnight <= 16 * MicrosPerDay
    ensures SubsequenceOf(FilterRecent(data, nowWeek, 7), FilterRecent(data, nowFortnight, 14))
    ensures SubsequenceOf(FilterRecent(data, nowFortnight, 14), FilterRecent(data, nowMonth, 30))
    ensures multiset(FilterRecent(data, nowWeek, 7)) <= multiset(FilterRecent(data, nowFortnight, 14))
    ensures multiset(FilterRecent(data, nowFortnight, 14)) <= multiset(FilterRecent(data, nowMonth, 30))
  {
    FilterRecentMonotone(data, nowWeek, 7, nowFortnight, 14);
    FilterRecentMonotone(data, nowFortnight, 14, nowMonth, 30);
  }

  /** 2024-01-10T00:00:00, in microseconds since 1970-01-01T00:00:00. */
  const Jan10: Instant := 1_704_844_800 * MicrosPerSecond

  /** With `now` at 2024-01-10 and a 7-day window, a post of 2024-01-05 is
      kept and one of 2024-01-02 is dropped. */
  lemma WeekWindowExample(data: seq<Post>)
    requires data == [Post("lockbit", Jan10 - 5 * MicrosPerDay), Post("alpha", Jan10 - 8 * MicrosPerDay)]
    ensures FilterRecent(data, Jan10, 7) == [data[0]]
  {
    RecentIffWithinWindow(data[0], Jan10, 7);
    RecentIffWithinWindow(data[1], Jan10, 7);
    assert data[1..][1..] == [];
  }

  /** Two `lockbit` posts of 2024-01-01 and one `alpha` post of 2024-01-05,
      with `now` at 2024-01-06 and a 10-day window: whatever order the sort
      leaves ties in, the per-group totals are `alpha` 1 then `lockbit` 2. */
  lemma GroupTotalsScenario(data: seq<Post>, now: Instant, totals: seq<Tallied<string>>)
    requires now == Jan10 - 4 * MicrosPerDay
    requires data == [Post("lockbit", Jan10 - 9 * MicrosPerDay), Post("lockbit", Jan10 - 9 * MicrosPerDay),
                      Post("alpha", Jan10 - 5 * MicrosPerDay)]
    requires Tabulates(totals, GroupsOf(RowsOf(FilterRecent(data, now, 10))))
    requires Sorted(totals, true)
    ensures totals == [Tallied("alpha", 1), Tallied("lockbit", 2)]
  {
    ScenarioGroups(data, now);
    ScenarioTotals(totals);
  }

  lemma ScenarioGroups(data: seq<Post>, now: Instant)
    requires now == Jan10 - 4 * MicrosPerDay
    requires data == [Post("lockbit", Jan10 - 9 * MicrosPerDay), Post("lockbit", Jan10 - 9 * MicrosPerDay),
                      Post("alpha", Jan10 - 5 * MicrosPerDay)]
    ensures GroupsOf(RowsOf(FilterRecent(data, now, 10))) == ["lockbit", "lockbit", "alpha"]
  {
    forall p | p in data
      ensures Recent(p, now, 10)
    {
      RecentIffWithinWindow(p, now, 10);
    }
    FilterRecentKeepsAll(data, now, 10);
    var rows := RowsOf(data);
    assert |rows| == 3;
    assert rows[..2][..1][..0] == [];
    assert GroupsOf(rows[..2][..1]) == ["lockbit"];
    assert GroupsOf(rows[..2]) == ["lockbit", "lockbit"];
  }

  /** The only ascending table of totals for two `lockbit` and one `alpha`. */
  lemma ScenarioTotals(totals: seq<Tallied<string>>)
    requires Tabulates(totals, ["lockbit", "lockbit", "alpha"])
    requires Sorted(totals, true)
    ensures totals == [Tallied("alpha", 1), Tallied("lockbit", 2)]
  {
    var groups := ["lockbit", "lockbit", "alpha"];
    var a, l := Tallied("alpha", 1), Tallied("lockbit", 2);
    assert multiset(groups)["alpha"] == 1 && multiset(groups)["lockbit"] == 2;
    assert a in totals && l in totals;
    assert multiset(totals) == multiset{a, l} by {
      forall x
        ensures multiset(totals)[x] == multiset{a, l}[x]
      {
        if x in totals {
          assert x.key in groups;
          assert x == a || x == l;
        }
      }
    }
    assert |totals| == 2;
    assert totals[0] in multiset(totals) && totals[1] in multiset(totals);
    assert totals[0].count <= totals[1].count;
  }
}
