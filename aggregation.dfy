/** `df.groupby(key).size().reset_index(name='count').sort_values(by='count')`
    as pure functions over sequences: a tally of equal keys, then a sort on
    the count column. */
module Aggregation {

  /** One row of a grouped table: a key (a group name, or a group name and a
      timestamp) with the number of input rows that carry it. */
  datatype Tallied<K> = Tallied(key: K, count: nat)

  /** `t` is the grouped table of `ks`: one row per distinct key, each row's
      count the multiplicity of its key, and no key of `ks` missing. */
  ghost predicate Tabulates<K(!new)>(t: seq<Tallied<K>>, ks: seq<K>) {
    && (forall x :: x in t ==> x.key in ks && x.count == multiset(ks)[x.key])
    && (forall k :: k in ks ==> Tallied(k, multiset(ks)[k]) in t)
    && (forall x :: multiset(t)[x] <= 1)
  }

  /** The sum of the counts of the rows whose key satisfies `P`. */
  function SumWhere<K>(t: seq<Tallied<K>>, P: K -> bool): nat {
    if t == [] then 0 else (if P(t[0].key) then t[0].count else 0) + SumWhere(t[1..], P)
  }

  /** The number of keys that satisfy `P`. */
  function CountWhere<K>(ks: seq<K>, P: K -> bool): nat {
    if ks == [] then 0 else CountWhere(ks[..|ks| - 1], P) + (if P(ks[|ks| - 1]) then 1 else 0)
  }

  /** The predicate that selects every key. */
  predicate AnyKey<K>(k: K) {
    true
  }

  /** The sum of the whole count column. */
  function Total<K>(t: seq<Tallied<K>>): nat {
    SumWhere(t, AnyKey)
  }

  /** The position of the row for key `k`, or `|t|` when there is none. */
  function KeyIndex<K(==,!new)>(t: seq<Tallied<K>>, k: K): (i: nat)
    ensures i <= |t|
    ensures i < |t| ==> t[i].key == k
    ensures forall j :: 0 <= j < i ==> t[j].key != k
  {
    if t == [] then 0
    else if t[0].key == k then 0
    else 1 + KeyIndex(t[1..], k)
  }

  /** Counts one more occurrence of `k`: its row goes up by one, or a new row
      with count 1 is added when `k` was not seen before. */
  function AddKey<K(==,!new)>(t: seq<Tallied<K>>, k: K): seq<Tallied<K>> {
    var i := KeyIndex(t, k);
    if i == |t| then t + [Tallied(k, 1)] else t[i := Tallied(k, t[i].count + 1)]
  }

  /** `groupby(...).size()`: the tally of the keys, taken left to right. */
  function Tally<K(==,!new)>(ks: seq<K>): (t: seq<Tallied<K>>)
    ensures Tabulates(t, ks)
  {
    if ks == [] then []
    else
      var init := ks[..|ks| - 1];
      assert ks == init + [ks[|ks| - 1]];
      var t := Tally(init);
      AddKeyTabulates(t, init, ks[|ks| - 1]);
      AddKey(t, ks[|ks| - 1])
  }

  lemma AddKeyTabulates<K(!new)>(t: seq<Tallied<K>>, ks: seq<K>, k: K)
    requires Tabulates(t, ks)
    ensures Tabulates(AddKey(t, k), ks + [k])
  {
    if KeyIndex(t, k) == |t| {
      AddNewKey(t, ks, k);
    } else {
      AddSeenKey(t, ks, k, KeyIndex(t, k));
    }
  }

  /** A key not seen before gets a new row with count 1 at the end. */
  lemma AddNewKey<K(!new)>(t: seq<Tallied<K>>, ks: seq<K>, k: K)
    requires Tabulates(t, ks)
    requires forall j :: 0 <= j < |t| ==> t[j].key != k
    ensures Tabulates(t + [Tallied(k, 1)], ks + [k])
  {
    var m, m' := multiset(ks), multiset(ks + [k]);
    assert m' == m + multiset{k};
    var t' := t + [Tallied(k, 1)];
    assert k !in ks;
    assert Tallied(k, 1) !in t;
    assert multiset(t') == multiset(t) + multiset{Tallied(k, 1)};
    forall x | x in t'
      ensures x.key in ks + [k] && x.count == m'[x.key]
    {
      if x in t {
        assert x.key != k;
      }
    }
    forall k' | k' in ks + [k]
      ensures Tallied(k', m'[k']) in t'
    {
      if k' != k {
        assert Tallied(k', m[k']) in t;
      }
    }
  }

  /** A key seen before has its row's count raised by one in place. */
  lemma AddSeenKey<K(!new)>(t: seq<Tallied<K>>, ks: seq<K>, k: K, i: nat)
    requires Tabulates(t, ks)
    requires i < |t| && t[i].key == k
    ensures Tabulates(t[i := Tallied(k, t[i].count + 1)], ks + [k])
  {
    var m, m' := multiset(ks), multiset(ks + [k]);
    assert m' == m + multiset{k};
    var before, after := t[i], Tallied(k, t[i].count + 1);
    var t' := t[i := after];
    assert before in t;
    assert before == Tallied(k, m[k]);
    assert multiset(t') == multiset(t) - multiset{before} + multiset{after};
    assert after !in t;
    forall x | x in t'
      ensures x.key in ks + [k] && x.count == m'[x.key]
    {
      assert x in multiset(t');
      if x != after {
        assert x in t;
        assert x.key != k;
      }
    }
    forall k' | k' in ks + [k]
      ensures Tallied(k', m'[k']) in t'
    {
      if k' != k {
        var y := Tallied(k', m[k']);
        assert y in t && y != before;
        assert y in multiset(t');
      } else {
        assert t'[i] == after;
      }
    }
  }

  lemma {:induction false} SumWhereConcat<K>(a: seq<Tallied<K>>, b: seq<Tallied<K>>, P: K -> bool)
    ensures SumWhere(a + b, P) == SumWhere(a, P) + SumWhere(b, P)
  {
    if a == [] {
      assert a + b == b;
    } else {
      assert (a + b)[1..] == a[1..] + b;
      SumWhereConcat(a[1..], b, P);
    }
  }

  /** Reordering the rows of a table does not change any of its sums. */
  lemma {:induction false} SumWherePermutation<K>(a: seq<Tallied<K>>, b: seq<Tallied<K>>, P: K -> bool)
    requires multiset(a) == multiset(b)
    ensures SumWhere(a, P) == SumWhere(b, P)
    decreases |a|
  {
    if a == [] {
      assert |b| == |multiset(b)| == 0;
    } else {
      var x := a[0];
      assert x in multiset(b);
      var j :| 0 <= j < |b| && b[j] == x;
      var rest := b[..j] + b[j + 1..];
      assert b == b[..j] + [x] + b[j + 1..];
      assert multiset(b) == multiset(b[..j]) + multiset{x} + multiset(b[j + 1..]);
      assert a == [x] + a[1..];
      assert multiset(rest) == multiset(b[..j]) + multiset(b[j + 1..]);
      assert multiset(a) == multiset{x} + multiset(a[1..]);
      assert multiset(a[1..]) == multiset(rest) by {
        forall y
          ensures multiset(a[1..])[y] == multiset(rest)[y]
        {
          assert multiset(a)[y] == multiset(b)[y];
        }
      }
      SumWherePermutation(a[1..], rest, P);
      SumWhereConcat(b[..j] + [x], b[j + 1..], P);
      SumWhereConcat(b[..j], [x], P);
      SumWhereConcat(b[..j], b[j + 1..], P);
    }
  }

  lemma AddKeySum<K(!new)>(t: seq<Tallied<K>>, k: K, P: K -> bool)
    ensures SumWhere(AddKey(t, k), P) == SumWhere(t, P) + (if P(k) then 1 else 0)
  {
    var i := KeyIndex(t, k);
    if i == |t| {
      SumWhereConcat(t, [Tallied(k, 1)], P);
    } else {
      var t' := AddKey(t, k);
      assert t == t[..i] + [t[i]] + t[i + 1..];
      assert t' == t[..i] + [t'[i]] + t[i + 1..];
      SumWhereConcat(t[..i] + [t[i]], t[i + 1..], P);
      SumWhereConcat(t[..i], [t[i]], P);
      SumWhereConcat(t[..i] + [t'[i]], t[i + 1..], P);
      SumWhereConcat(t[..i], [t'[i]], P);
    }
  }

  /** Summing the tally over the keys that satisfy `P` counts exactly the
      input rows that satisfy `P`; with `P` always true, the counts add up to
      the number of input rows. */
  lemma {:induction false} TallySumWhere<K(!new)>(ks: seq<K>, P: K -> bool)
    ensures SumWhere(Tally(ks), P) == CountWhere(ks, P)
  {
    if ks != [] {
      var init := ks[..|ks| - 1];
      TallySumWhere(init, P);
      AddKeySum(Tally(init), ks[|ks| - 1], P);
    }
  }

  /** The order `sort_values(by='count', ascending=...)` asks for between two
      counts. */
  predicate InOrder(a: nat, b: nat, ascending: bool) {
    if ascending then a <= b else a >= b
  }

  ghost predicate Sorted<K>(t: seq<Tallied<K>>, ascending: bool) {
    forall i, j :: 0 <= i < j < |t| ==> InOrder(t[i].count, t[j].count, ascending)
  }

  /** Places `x` in front of the first row it is in order with. */
  function Insert<K>(x: Tallied<K>, s: seq<Tallied<K>>, ascending: bool): (r: seq<Tallied<K>>)
    ensures multiset(r) == multiset(s) + multiset{x}
  {
    if s == [] then [x]
    else if InOrder(x.count, s[0].count, ascending) then [x] + s
    else
      assert s == [s[0]] + s[1..];
      [s[0]] + Insert(x, s[1..], ascending)
  }

  lemma SortedTail<K>(s: seq<Tallied<K>>, ascending: bool)
    requires s != [] && Sorted(s, ascending)
    ensures Sorted(s[1..], ascending)
    ensures forall y :: y in s[1..] ==> InOrder(s[0].count, y.count, ascending)
  {
    forall i, j | 0 <= i < j < |s[1..]|
      ensures InOrder(s[1..][i].count, s[1..][j].count, ascending)
    {
      assert s[1..][i] == s[i + 1] && s[1..][j] == s[j + 1];
    }
  }

  /** Sorted plus one: inserting into a sorted table keeps it sorted. */
  lemma {:induction false} InsertSorted<K>(x: Tallied<K>, s: seq<Tallied<K>>, ascending: bool)
    requires Sorted(s, ascending)
    ensures Sorted(Insert(x, s, ascending), ascending)
  {
    if s != [] && !InOrder(x.count, s[0].count, ascending) {
      SortedTail(s, ascending);
      InsertSorted(x, s[1..], ascending);
      var rest := Insert(x, s[1..], ascending);
      var r := [s[0]] + rest;
      assert r == Insert(x, s, ascending);
      forall y | y in rest
        ensures InOrder(s[0].count, y.count, ascending)
      {
        assert y in multiset(rest);
      }
      forall i, j | 0 <= i < j < |r|
        ensures InOrder(r[i].count, r[j].count, ascending)
      {
        assert r[j] == rest[j - 1];
        assert rest[j - 1] in rest;
        if i > 0 {
          assert r[i] == rest[i - 1];
        }
      }
    }
  }

  /** `sort_values(by='count', ascending=...)`: a reordering of the rows in
      which the counts run the requested way. */
  function SortByCount<K>(t: seq<Tallied<K>>, ascending: bool): (r: seq<Tallied<K>>)
    ensures multiset(r) == multiset(t)
    ensures Sorted(r, ascending)
  {
    if t == [] then []
    else
      assert t == [t[0]] + t[1..];
      var rest := SortByCount(t[1..], ascending);
      InsertSorted(t[0], rest, ascending);
      Insert(t[0], rest, ascending)
  }

  /** The whole `groupby(...).size().reset_index(name='count')
      .sort_values(by='count', ascending=...)` chain: one row per distinct key
      with its multiplicity, counts in the requested order and summing to the
      number of input rows. */
  function CountBy<K(==,!new)>(ks: seq<K>, ascending: bool): (t: seq<Tallied<K>>)
    ensures Tabulates(t, ks)
    ensures forall x :: x in t ==> x.count >= 1
    ensures Sorted(t, ascending)
    ensures Total(t) == |ks|
  {
    var sorted := SortByCount(Tally(ks), ascending);
    TabulatesPermutation(Tally(ks), sorted, ks);
    CountBySumWhere(ks, ascending, AnyKey);
    CountWhereAll(ks);
    sorted
  }

  /** Grouping is order-blind: any reordering of a grouped table is still
      the grouped table of the same keys. */
  lemma TabulatesPermutation<K(!new)>(a: seq<Tallied<K>>, b: seq<Tallied<K>>, ks: seq<K>)
    requires Tabulates(a, ks) && multiset(a) == multiset(b)
    ensures Tabulates(b, ks)
  {
    forall x | x in b
      ensures x.key in ks && x.count == multiset(ks)[x.key]
    {
      assert x in multiset(a);
    }
    forall k | k in ks
      ensures Tallied(k, multiset(ks)[k]) in b
    {
      assert Tallied(k, multiset(ks)[k]) in multiset(b);
    }
  }

  /** A grouped table is determined up to order: two tables of the same keys
      hold the same rows, so the sorted table is a reordering of whatever row
      order the grouping itself produced. */
  lemma TabulatesUnique<K(!new)>(a: seq<Tallied<K>>, b: seq<Tallied<K>>, ks: seq<K>)
    requires Tabulates(a, ks) && Tabulates(b, ks)
    ensures multiset(a) == multiset(b)
  {
    forall x
      ensures multiset(a)[x] == multiset(b)[x]
    {
      if x in a {
        assert Tallied(x.key, multiset(ks)[x.key]) in b;
      }
      if x in b {
        assert Tallied(x.key, multiset(ks)[x.key]) in a;
      }
    }
  }

  /** Summing the sorted table over the keys that satisfy `P` counts the
      input rows that satisfy `P`: grouping and sorting lose no row. */
  lemma CountBySumWhere<K(!new)>(ks: seq<K>, ascending: bool, P: K -> bool)
    ensures SumWhere(SortByCount(Tally(ks), ascending), P) == CountWhere(ks, P)
  {
    TallySumWhere(ks, P);
    SumWherePermutation(Tally(ks), SortByCount(Tally(ks), ascending), P);
  }

  lemma {:induction false} CountWhereAll<K>(ks: seq<K>)
    ensures CountWhere(ks, AnyKey) == |ks|
  {
    if ks != [] {
      CountWhereAll(ks[..|ks| - 1]);
    }
  }
}
