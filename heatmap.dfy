/** `visualizations/heatmap.py`: posts of the last `days` days, grouped by
    (group, timestamp) and sorted by descending count for the heatmap. */
module Heatmap {
  import opened Recency
  import opened Columns
  import opened Aggregation

  /** The window of the script's own call. */
  const ScriptDays: int := 90

  /** `plot_posting_frequency(days)` with the clock reading passed in: the
      table handed to the heatmap. */
  method PlotPostingFrequency(data: seq<Post>, now: Instant, days: int) returns (table: seq<Tallied<Row>>)
    ensures Tabulates(table, RowsOf(FilterRecent(data, now, days)))
    ensures Sorted(table, false)
    ensures Total(table) == |FilterRecent(data, now, days)|
  {
    var filtered := FilterRecent(data, now, days);
    var df := FrameOf(filtered);
    table := CountBy(df, false);
  }

  /** With the script's 90-day window, a post exactly 90 days old is left out
      and one 89 days and 23 hours old is kept. */
  lemma NinetyDayBoundary(p: Post, now: Instant)
    ensures now - p.discovered == 90 * MicrosPerDay ==> !Recent(p, now, ScriptDays)
    ensures now - p.discovered == 89 * MicrosPerDay + 23 * MicrosPerHour ==> Recent(p, now, ScriptDays)
  {
    RecentIffWithinWindow(p, now, ScriptDays);
  }
}
