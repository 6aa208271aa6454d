/** `scatter_graph.py`: posts of the last `days` days, one scatter point per
    post, with no aggregation. */
module ScatterGraph {
  import opened Recency
  import opened Columns

  /** The default window, used by the script's own call. */
  const DefaultDays: int := 365

  /** `plot_posting_frequency(days)` with the clock reading passed in: the
      frame handed to the scatter plot, one row per kept post in order. The
      script builds that frame twice from the same two lists; both builds
      give the same rows. */
  method PlotPostingFrequency(data: seq<Post>, now: Instant, days: int) returns (df: seq<Row>)
    ensures |df| == |FilterRecent(data, now, days)|
    ensures forall i :: 0 <= i < |df| ==>
              df[i].groupName == FilterRecent(data, now, days)[i].groupName &&
              df[i].timestamp == FilterRecent(data, now, days)[i].discovered
  {
    var filtered := FilterRecent(data, now, days);
    var groupNames, timestamps := ExtractColumns(filtered);
    df := Frame(groupNames, timestamps);
    df := Frame(groupNames, timestamps);
  }

  /** With the default 365-day window, a post 364 days old is kept and one
      exactly 365 days old is dropped. */
  lemma YearBoundary(p: Post, now: Instant)
    ensures now - p.discovered == 364 * MicrosPerDay ==> Recent(p, now, DefaultDays)
    ensures now - p.discovered == 365 * MicrosPerDay ==> !Recent(p, now, DefaultDays)
  {
    RecentIffWithinWindow(p, now, DefaultDays);
  }
}
