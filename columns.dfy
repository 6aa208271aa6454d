/** The step that turns the kept posts into a two-column table: the append
    loop over `group_names` and `timestamps`, then the frame built from them. */
module Columns {
  import opened Recency

  /** One row of the frame: the `group_name` and `timestamp` columns. */
  datatype Row = Row(groupName: string, timestamp: Instant)

  /** The rows the frame must hold for the given posts, row i from post i. */
  function RowsOf(posts: seq<Post>): (rows: seq<Row>)
  {
    seq(|posts|, i requires 0 <= i < |posts| => Row(posts[i].groupName, posts[i].discovered))
  }

  /** The append loop: walks the kept posts once and pushes each post's group
      name and discovery time onto two parallel lists. */
  method ExtractColumns(filtered: seq<Post>) returns (groupNames: seq<string>, timestamps: seq<Instant>)
    ensures |groupNames| == |filtered| && |timestamps| == |filtered|
    ensures forall i :: 0 <= i < |filtered| ==>
              groupNames[i] == filtered[i].groupName && timestamps[i] == filtered[i].discovered
  {
    groupNames := [];
    timestamps := [];
    for k := 0 to |filtered|
      invariant |groupNames| == k && |timestamps| == k
      invariant forall i :: 0 <= i < k ==>
                  groupNames[i] == filtered[i].groupName && timestamps[i] == filtered[i].discovered
    {
      var post := filtered[k];
      groupNames := groupNames + [post.groupName];
      timestamps := timestamps + [post.discovered];
    }
  }

  /** `pd.DataFrame({'group_name': ..., 'timestamp': ...})`: the two columns
      zipped into rows (the library refuses columns of different lengths). */
  function Frame(groupNames: seq<string>, timestamps: seq<Instant>): (df: seq<Row>)
    requires |groupNames| == |timestamps|
    ensures |df| == |groupNames|
    ensures forall i :: 0 <= i < |df| ==> df[i].groupName == groupNames[i] && df[i].timestamp == timestamps[i]
  {
    seq(|groupNames|, i requires 0 <= i < |groupNames| => Row(groupNames[i], timestamps[i]))
  }

  /** The extraction loop followed by the frame construction yields exactly
      one row per kept post, row i from post i. */
  method FrameOf(filtered: seq<Post>) returns (df: seq<Row>)
    ensures df == RowsOf(filtered)
  {
    var groupNames, timestamps := ExtractColumns(filtered);
    df := Frame(groupNames, timestamps);
  }

  /** The `group_name` column, the key of the per-group totals. */
  function GroupsOf(rows: seq<Row>): (groups: seq<string>)
    ensures |groups| == |rows|
    ensures forall i :: 0 <= i < |rows| ==> groups[i] == rows[i].groupName
  {
    if rows == [] then [] else GroupsOf(rows[..|rows| - 1]) + [rows[|rows| - 1].groupName]
  }
}
