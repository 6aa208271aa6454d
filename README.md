# LeakSiteAnalytics: recency filter and posting-frequency tables

LeakSiteAnalytics downloads the RansomWatch list of ransomware leak-site posts
and draws charts of how often each group posts: a density heatmap, a scatter
plot, a pie chart and a bar chart. The charts cover a trailing window of days.
Three scripts do this: `run_all.py`, `visualizations/heatmap.py` and
`scatter_graph.py`. The logic behind every chart is the same short chain of
steps. This project models that chain in Dafny and proves its properties:

1. **Recency filter** (`Recency`). A post is kept when the whole-day part of
   `now - discovered` is strictly below the window. Python's `timedelta.days`
   is the floor of the difference divided by one day. The model works in
   integer microseconds, the resolution of a Python `datetime`, and uses
   Dafny's `/`, which is also floor division for a positive divisor. Within
   one run every post is judged against one `now`, which the model takes as a
   parameter.
   The kept posts are a subsequence of the input in the original order.
2. **Column extraction** (`Columns`). The loop appends each kept post's group
   name and timestamp onto two parallel lists. It is a `method` with a loop
   and invariants. A `pd.DataFrame` built from the two lists is a sequence of
   rows.
3. **Grouping and sorting** (`Aggregation`). `groupby(...).size()` is a tally
   of equal keys. `sort_values(by='count')` is a sort on the count column.
   Both are generic over the key: a `(group_name, timestamp)` row for the
   heatmap and scatter table, or a group name for the pie and bar table. A
   grouped table is specified by `Tabulates`: one row per distinct key, each
   count equal to that key's multiplicity, no key missing. Sorting is
   specified as a reordering with the counts in the requested direction.
4. **File names** (`FileNames`). Each chart file is named
   `<chart>_<window>.html`. The window is Python's `str` of an int. The model
   proves that different (chart, window) pairs never share a name.
5. **The three scripts** (`RunAll`, `Heatmap`, `ScatterGraph`). There is one
   method per chart computation, plus the driver. `RunAll.RunAll` makes the
   driver's three calls for the 7, 14 and 30 day windows, each with its own
   clock reading.

## Model

| member | source | states |
|---|---|---|
| `Recency.DaysBetween` | run_all.py:34 | the day count is the floor of the difference: `days * 1 day <= now - t < (days + 1) * 1 day` |
| `Recency.Recent` | run_all.py:34 | the comprehension's condition: the floor-day count of `now - discovered` is below the window, which `RecentIffWithinWindow` proves the same as `now - discovered < window * 1 day` |
| `Recency.FilterRecent` | run_all.py:32-34 | a post is kept iff it is in the input and `(now - discovered).days < window`; the result is a subsequence of the input in the original order |
| `Recency.FilterRecentMultiplicity` | run_all.py:34 | a post that passes is kept as many times as it occurs in the input; a post that fails is not kept at all |
| `Recency.RecentIffWithinWindow` | run_all.py:34 | the whole-day test is the same as `now - discovered < window * 1 day` |
| `Recency.FutureAlwaysKept` | run_all.py:34 | a post dated after `now` passes every non-negative window |
| `Recency.ZeroWindowKeepsOnlyFuture` | run_all.py:34 | a 0-day window keeps exactly the posts dated after `now` |
| `Recency.FilterRecentKeepsAll` | run_all.py:34 | when every post passes, the comprehension returns the input unchanged |
| `Recency.FilterRecentConcat` | run_all.py:32-34 | filtering `a + b` is filtering `a` then `b`: a post's verdict depends only on the post and the shared `now` |
| `Recency.RecentLaterClock` | run_all.py:32-34 | a post that passes a narrow window at one clock reading passes a wider window at a later reading, when the clock advanced by no more than the windows differ |
| `Recency.FilterRecentMonotone` | run_all.py:32-34 | a wider window at a reading no more than the difference later keeps every post the narrower one keeps, in order and with multiplicity; with one reading, a wider window never drops a post |
| `Columns.ExtractColumns` | run_all.py:37-41 | the two lists have the length of the kept posts, and entry i of each comes from kept post i |
| `Columns.Frame` | run_all.py:43 | `pd.DataFrame` of the two columns has one row per list entry, row i from entry i of both lists |
| `Columns.FrameOf` | run_all.py:37-44 | extraction followed by frame construction gives one row per kept post, row i from post i |
| `Columns.GroupsOf` | run_all.py:73 | the `group_name` column that the per-group totals group on has one entry per row, entry i from row i |
| `Aggregation.Tally` | run_all.py:50 | `groupby(...).size()` yields one row per distinct key whose count is that key's multiplicity, with no key missing |
| `Aggregation.AddKeyTabulates` | run_all.py:50 | counting one more key keeps the table a correct tally of the extended input |
| `Aggregation.TallySumWhere` | run_all.py:50 | for any key predicate, the counts of the matching rows add up to the number of matching input rows |
| `Aggregation.SortByCount` | run_all.py:51 | `sort_values(by='count')` returns a permutation of its input whose counts run in the requested direction |
| `Aggregation.InsertSorted` | run_all.py:51 | inserting one row into a sorted table keeps it sorted |
| `Aggregation.SumWherePermutation` | run_all.py:51 | reordering the rows changes none of the count sums |
| `Aggregation.TabulatesPermutation` | run_all.py:51 | any reordering of a grouped table is still the grouped table of the same keys |
| `Aggregation.TabulatesUnique` | run_all.py:50-51 | two grouped tables of the same keys hold the same rows, so the sorted table is a permutation of the grouped one whatever order the grouping used |
| `Aggregation.CountBy` | run_all.py:50-51 | the grouped-and-sorted table has one row per distinct key with its multiplicity (at least 1), is sorted by count, and its counts sum to the number of input rows |
| `Aggregation.CountBySumWhere` | run_all.py:73 | grouping and sorting lose no row: the sums over any key predicate equal the input counts |
| `FileNames.Decimal` | run_all.py:57 | `str(days_filter)` is a non-empty digit string, with a minus sign for a negative int, that reads back as the int (`DecimalRoundTrip`) |
| `FileNames.DecimalRoundTrip` | run_all.py:57 | reading back `str(days_filter)` gives `days_filter` |
| `FileNames.FileName` | run_all.py:57 | `"<prefix>" + str(days_filter) + ".html"` is longer than prefix and extension together; distinct (chart, window) pairs give distinct names (`FileNameInjective`) |
| `FileNames.FileNameInjective` | run_all.py:57-83 | two file names are equal only when their chart kind and window are equal |
| `RunAll.CountWhereGroup` | run_all.py:73 | the number of rows of group g is the multiplicity of g in the `group_name` column |
| `RunAll.GroupTotalIsSumOfBuckets` | run_all.py:50-73 | each group's total equals the sum of that group's counts in the (group, timestamp) table |
| `RunAll.RunDataViz` | run_all.py:28-84 | the pair table is the grouped table of the kept rows, sorted by descending count, with counts summing to the number of kept posts; the group totals are the grouped table of the group column, sorted ascending, each equal to its group's pair-table sum; the four file names are the chart prefixes with the window |
| `RunAll.ChartFiles` | run_all.py:57-83 | one run writes four files, the heatmap, scatter, pie and bar names for its window in that order, and no two of them share a name |
| `RunAll.RunAll` | run_all.py:88-91 | the files written are the 7-day run's four chart files, then the 14-day run's, then the 30-day run's, each run with its own clock reading; the twelve names are pairwise distinct |
| `RunAll.DriverFilesDistinct` | run_all.py:57-91 | the twelve (chart, window) names of the driver are pairwise distinct |
| `RunAll.DriverWindowsNest` | run_all.py:89-91 | with one clock reading per run, the 7-day posts lie within the 14-day posts, which lie within the 30-day posts, in order and with multiplicity, whenever the clock advances at most 7 days between the first two runs and at most 16 days between the last two |
| `RunAll.WeekWindowExample` | run_all.py:34 | with `now` at 2024-01-10 and a 7-day window, a post of 2024-01-05 is kept and one of 2024-01-02 is dropped |
| `RunAll.ScenarioTotals` | run_all.py:73 | for two `lockbit` keys and one `alpha`, the only ascending grouped table is `alpha` 1 then `lockbit` 2 |
| `RunAll.GroupTotalsScenario` | run_all.py:73 | two `lockbit` posts of 2024-01-01 and one `alpha` post of 2024-01-05, `now` 2024-01-06, window 10: the totals are `alpha` 1 then `lockbit` 2, whatever the tie order |
| `Heatmap.PlotPostingFrequency` | visualizations/heatmap.py:6-32 | the heatmap table is the grouped table of the kept (group, timestamp) rows, sorted by descending count, with counts summing to the number of kept posts |
| `Heatmap.NinetyDayBoundary` | visualizations/heatmap.py:15-38 | with the script's 90-day window, a post exactly 90 days old is dropped and one 89 days 23 hours old is kept |
| `ScatterGraph.PlotPostingFrequency` | scatter_graph.py:6-32 | the scatter frame has exactly one row per kept post, row i from post i, with no aggregation, after building the frame twice |
| `ScatterGraph.YearBoundary` | scatter_graph.py:6-15 | with the default 365-day window, a post 364 days old is kept and one exactly 365 days old is dropped |

## Left out

- Downloading `posts.json` over HTTP, writing it, and reading it back with `json.load` (run_all.py:8-26, visualizations/heatmap.py:8-9, scatter_graph.py:8-9) are I/O. The model takes the parsed list of posts as a parameter.
- The clock reading `datetime.datetime.now()` is a parameter `now`. The driver's three runs each read the clock (run_all.py:32), so `RunAll.RunAll` takes three readings, one per run, and places no order on them.
- RunAll.DriverWindowsNest: the nesting holds only when the clock advances by at most 7 days between the 7-day and 14-day runs and by at most 16 days between the 14-day and 30-day runs; the model states no nesting for readings further apart.
- Timestamp parsing by `datetime.fromisoformat` and `pd.to_datetime` is left out. A post's `discovered` is already an instant in microseconds. Errors from parsing are therefore not modelled: a malformed string, a missing `discovered` or `group_name` key, and the error from subtracting a timezone-aware instant from a naive one. The two parsers are assumed to agree on the instant.
- A null `group_name` is not modelled: a post's group name is always a string. In the code such a post passes the filter and is appended, but `groupby` drops null keys by default, so pandas would leave it out of both grouped tables and their counts would sum to fewer than the kept posts.
- Fields of a post other than `group_name` and `discovered` are not modelled, because no step reads them.
- Plotly rendering (`density_heatmap`, `scatter`, `pie`, `bar`, `show`, `write_html`) and the progress `print` calls are left out. `RunDataViz` returns the tables the charts are drawn from and the names of the files they would be written to.
- The key order that `groupby` gives its rows (sorted by key) is not modelled. `Tally` lists keys in order of first appearance. The contracts of the script methods do not depend on this. `TabulatesUnique` shows that both orders hold the same rows.
- The tie order of `sort_values` is not modelled. Its default quicksort is not stable. The script methods promise only a permutation with counts in order. The insertion sort that implements `SortByCount` leaves ties in input order.
- Building the scatter frame twice (scatter_graph.py:25, scatter_graph.py:29) is modelled as two calls of the same function on the same lists. Both calls return the same rows because a function is deterministic; no separate lemma states it.
- Three behaviours of the code are kept as written. The list comprehension keeps the posts in their input order, and the model proves that. The count sort is not stable, so the model fixes no tie order. The window may be any integer, and a post dated after `now` passes even a 0-day window.
