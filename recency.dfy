/** The recency filter shared by the three chart scripts: a post is kept when
    the whole-day part of `now - discovered` is strictly below the window. */
module Recency {

  /** A point in time, in microseconds since a fixed (naive) epoch: the
      resolution of a Python datetime. */
  type Instant = int

  const MicrosPerSecond: int := 1_000_000
  const MicrosPerHour: int := 3600 * MicrosPerSecond
  const MicrosPerDay: int := 24 * MicrosPerHour

  /** A leak-site disclosure post, with its discovery time already parsed. */
  datatype Post = Post(groupName: string, discovered: Instant)

  /** `(now - t).days` of a Python timedelta: the floor of the difference
      divided by one day (negative for a `t` after `now`). */
  function DaysBetween(now: Instant, t: Instant): (days: int)
    ensures days * MicrosPerDay <= now - t < (days + 1) * MicrosPerDay
  {
    (now - t) / MicrosPerDay
  }

  /** The comprehension's condition: `(now - discovered).days < window`. */
  predicate Recent(p: Post, now: Instant, window: int) {
    DaysBetween(now, p.discovered) < window
  }

  /** `r` is `s` with some elements dropped and the rest kept in order. */
  ghost predicate SubsequenceOf<T>(r: seq<T>, s: seq<T>)
    decreases |s|
  {
    if r == [] then true
    else if s == [] then false
    else (r[0] == s[0] && SubsequenceOf(r[1..], s[1..])) || SubsequenceOf(r, s[1..])
  }

  /** The list comprehension `[post for post in data if ...]`: every post is
      judged against the same `now`, and the survivors keep their order. */
  function FilterRecent(data: seq<Post>, now: Instant, window: int): (kept: seq<Post>)
    ensures |kept| <= |data|
    ensures SubsequenceOf(kept, data)
    ensures forall p :: p in kept <==> p in data && Recent(p, now, window)
  {
    if data == [] then []
    else
      var rest := FilterRecent(data[1..], now, window);
      if Recent(data[0], now, window) then [data[0]] + rest else rest
  }

  /** A kept post is kept as often as it occurs in the input; a dropped one
      not at all. */
  lemma {:induction false} FilterRecentMultiplicity(data: seq<Post>, now: Instant, window: int)
    ensures forall p :: multiset(FilterRecent(data, now, window))[p] ==
                          if Recent(p, now, window) then multiset(data)[p] else 0
  {
    if data != [] {
      assert data == [data[0]] + data[1..];
      FilterRecentMultiplicity(data[1..], now, window);
    }
  }

  /** The day test is the same as comparing the raw difference with the
      window measured in microseconds. */
  lemma RecentIffWithinWindow(p: Post, now: Instant, window: int)
    ensures Recent(p, now, window) <==> now - p.discovered < window * MicrosPerDay
  {
    var d := DaysBetween(now, p.discovered);
    if d < window {
      assert (d + 1) * MicrosPerDay <= window * MicrosPerDay;
    } else {
      assert window * MicrosPerDay <= d * MicrosPerDay;
    }
  }

  /** A post dated after `now` has a negative day count and so passes every
      window that is not negative. */
  lemma FutureAlwaysKept(p: Post, now: Instant, window: int)
    requires now < p.discovered && 0 <= window
    ensures Recent(p, now, window)
  {
    RecentIffWithinWindow(p, now, window);
  }

  /** A zero-day window keeps exactly the posts dated after `now`. */
  lemma ZeroWindowKeepsOnlyFuture(data: seq<Post>, now: Instant)
    ensures forall p :: p in FilterRecent(data, now, 0) <==> p in data && now < p.discovered
  {
    forall p | p in data
      ensures Recent(p, now, 0) <==> now < p.discovered
    {
      RecentIffWithinWindow(p, now, 0);
    }
  }

  /** When every post passes, the comprehension returns the list unchanged. */
  lemma {:induction false} FilterRecentKeepsAll(data: seq<Post>, now: Instant, window: int)
    requires forall p :: p in data ==> Recent(p, now, window)
    ensures FilterRecent(data, now, window) == data
  {
    if data != [] {
      assert data == [data[0]] + data[1..];
      FilterRecentKeepsAll(data[1..], now, window);
    }
  }

  /** Each post's verdict depends only on that post and `now`: filtering a
      concatenation filters the two halves independently. */
  lemma {:induction false} FilterRecentConcat(a: seq<Post>, b: seq<Post>, now: Instant, window: int)
    ensures FilterRecent(a + b, now, window) == FilterRecent(a, now, window) + FilterRecent(b, now, window)
  {
    if a == [] {
      assert a + b == b;
    } else {
      assert (a + b)[0] == a[0];
      assert (a + b)[1..] == a[1..] + b;
      FilterRecentConcat(a[1..], b, now, window);
    }
  }

  /** A post that passes `narrow` at clock reading `earlier` still passes
      `wide` at `later`, as long as the clock advanced by no more than the
      windows differ. */
  lemma RecentLaterClock(p: Post, earlier: Instant, narrow: int, later: Instant, wide: int)
    requires later - earlier <= (wide - narrow) * MicrosPerDay
    ensures Recent(p, earlier, narrow) ==> Recent(p, later, wide)
  {
    RecentIffWithinWindow(p, earlier, narrow);
    RecentIffWithinWindow(p, later, wide);
  }

  /** Filtering at `earlier` with `narrow` keeps a subsequence of what
      filtering at `later` with `wide` keeps, with multiplicity, when the clock
      advanced by no more than the windows differ. With one clock reading this
      says that widening the window never drops a post. */
  lemma {:induction false} FilterRecentMonotone(data: seq<Post>, earlier: Instant, narrow: int, later: Instant, wide: int)
    requires later - earlier <= (wide - narrow) * MicrosPerDay
    ensures SubsequenceOf(FilterRecent(data, earlier, narrow), FilterRecent(data, later, wide))
    ensures multiset(FilterRecent(data, earlier, narrow)) <= multiset(FilterRecent(data, later, wide))
  {
    if data != [] {
      FilterRecentMonotone(data[1..], earlier, narrow, later, wide);
      RecentLaterClock(data[0], earlier, narrow, later, wide);
      var n := FilterRecent(data[1..], earlier, narrow);
      var w := FilterRecent(data[1..], later, wide);
      if Recent(data[0], earlier, narrow) {
        assert ([data[0]] + n)[1..] == n;
        assert ([data[0]] + w)[1..] == w;
      } else if Recent(data[0], later, wide) {
        assert ([data[0]] + w)[1..] == w;
      }
    }
  }
}
