/** The pandas idioms the scripts aggregate with: `groupby(key)[col].sum()`
    (one entry per distinct key; pandas sorts the keys, the model lists them in
    first-seen order), column sums, and
    `sort_values` (modelled by a stable insertion sort on a real-valued key). */
module Aggregates {

  /** Sum of `f` over a sequence. */
  function SumBy<A>(s: seq<A>, f: A -> real): real
  {
    if s == [] then 0.0 else f(s[0]) + SumBy(s[1..], f)
  }

  lemma {:induction false} SumByAppend<A>(s: seq<A>, x: A, f: A -> real)
    ensures SumBy(s + [x], f) == SumBy(s, f) + f(x)
  {
    if s != [] {
      assert (s + [x])[1..] == s[1..] + [x];
      SumByAppend(s[1..], x, f);
    }
  }

  lemma {:induction false} SumByConcat<A>(s: seq<A>, t: seq<A>, f: A -> real)
    ensures SumBy(s + t, f) == SumBy(s, f) + SumBy(t, f)
  {
    if s == [] {
      assert s + t == t;
    } else {
      assert (s + t)[1..] == s[1..] + t;
      SumByConcat(s[1..], t, f);
    }
  }

  /** Replacing one element changes the sum by the difference. */
  lemma {:induction false} SumByUpdate<A>(s: seq<A>, j: nat, x: A, f: A -> real)
    requires j < |s|
    ensures SumBy(s[j := x], f) == SumBy(s, f) - f(s[j]) + f(x)
  {
    if j > 0 {
      assert s[j := x][1..] == s[1..][j - 1 := x];
      SumByUpdate(s[1..], j - 1, x, f);
    }
  }

  function Value<K>(p: (K, real)): real { p.1 }

  /** Column sum of a (key, value) table. */
  function Total<K>(p: seq<(K, real)>): real
  {
    SumBy(p, Value)
  }

  function KeysOf<K, V>(p: seq<(K, V)>): (ks: seq<K>)
    ensures |ks| == |p| && forall i :: 0 <= i < |p| ==> ks[i] == p[i].0
  {
    seq(|p|, i requires 0 <= i < |p| => p[i].0)
  }

  lemma KeysOfAppend<K, V>(p: seq<(K, V)>, x: (K, V))
    ensures KeysOf(p + [x]) == KeysOf(p) + [x.0]
  {
  }

  /** Sum of the values whose key is `k`. */
  function SumIf<K(==)>(p: seq<(K, real)>, k: K): real
  {
    if p == [] then 0.0 else (if p[0].0 == k then p[0].1 else 0.0) + SumIf(p[1..], k)
  }

  lemma {:induction false} SumIfAppend<K>(p: seq<(K, real)>, x: (K, real), k: K)
    ensures SumIf(p + [x], k) == SumIf(p, k) + (if x.0 == k then x.1 else 0.0)
  {
    if p != [] {
      assert (p + [x])[1..] == p[1..] + [x];
      SumIfAppend(p[1..], x, k);
    }
  }

  lemma {:induction false} SumIfAbsent<K>(p: seq<(K, real)>, k: K)
    requires k !in KeysOf(p)
    ensures SumIf(p, k) == 0.0
  {
    if p != [] {
      assert KeysOf(p[1..]) == KeysOf(p)[1..];
      SumIfAbsent(p[1..], k);
    }
  }

  predicate DistinctKeys<K(==), V>(g: seq<(K, V)>)
  {
    forall i, j :: 0 <= i < j < |g| ==> g[i].0 != g[j].0
  }

  /** The distinct elements of `ks` in the order of their first occurrence. */
  function Distinct<K(==)>(ks: seq<K>): (d: seq<K>)
    ensures forall i, j :: 0 <= i < j < |d| ==> d[i] != d[j]
    ensures forall i :: 0 <= i < |d| ==> d[i] in ks
    ensures forall i :: 0 <= i < |ks| ==> ks[i] in d
  {
    if ks == [] then []
    else
      var d := Distinct(ks[..|ks| - 1]);
      assert ks == ks[..|ks| - 1] + [ks[|ks| - 1]];
      if ks[|ks| - 1] in d then d else d + [ks[|ks| - 1]]
  }

  /** `groupby(key)[value].sum()`: one row per distinct key, holding the sum of
      that key's values. The keys are listed in first-seen order; pandas lists them
      sorted, so only the set of rows, not their order, is the script's. */
  function GroupSum<K(==)>(p: seq<(K, real)>): seq<(K, real)>
  {
    var d := Distinct(KeysOf(p));
    seq(|d|, j requires 0 <= j < |d| => (d[j], SumIf(p, d[j])))
  }

  /** The grouped table has exactly one row per key that occurs, and each row's
      value is the sum of that key's values. */
  lemma GroupSumMeaning<K>(p: seq<(K, real)>)
    ensures DistinctKeys(GroupSum(p))
    ensures forall k :: k in KeysOf(GroupSum(p)) <==> k in KeysOf(p)
    ensures forall j :: 0 <= j < |GroupSum(p)| ==> GroupSum(p)[j].1 == SumIf(p, GroupSum(p)[j].0)
  {
    var d := Distinct(KeysOf(p));
    assert KeysOf(GroupSum(p)) == d;
  }

  /** Position of key `k` in a table, or the table's length when absent. */
  function Find<K(==), V>(g: seq<(K, V)>, k: K): (j: nat)
    ensures j <= |g|
    ensures j < |g| ==> g[j].0 == k
    ensures forall i :: 0 <= i < j ==> g[i].0 != k
  {
    if g == [] then 0
    else if g[0].0 == k then 0
    else 1 + Find(g[1..], k)
  }

  /** One step of a running `groupby(...).sum()`: add `v` to the row of `k`, or
      append a new row for a key seen for the first time. */
  function Upsert<K(==)>(g: seq<(K, real)>, k: K, v: real): seq<(K, real)>
  {
    var j := Find(g, k);
    if j < |g| then g[j := Bump(g[j], v)] else g + [(k, v)]
  }

  /** A table row with `v` added to its value. */
  function Bump<K>(e: (K, real), v: real): (K, real) { (e.0, e.1 + v) }

  lemma UpsertFound<K>(g: seq<(K, real)>, k: K, v: real)
    requires k in KeysOf(g)
    ensures Find(g, k) < |g|
    ensures Upsert(g, k, v) == g[Find(g, k) := Bump(g[Find(g, k)], v)]
  {
  }

  lemma UpsertMissing<K>(g: seq<(K, real)>, k: K, v: real)
    requires k !in KeysOf(g)
    ensures Upsert(g, k, v) == g + [(k, v)]
  {
    if Find(g, k) < |g| {
      assert KeysOf(g)[Find(g, k)] == k;
    }
  }

  lemma DistinctAppend<K>(ks: seq<K>, k: K)
    ensures Distinct(ks + [k]) == if k in Distinct(ks) then Distinct(ks) else Distinct(ks) + [k]
  {
    assert (ks + [k])[..|ks|] == ks;
  }

  lemma GroupSumShape<K>(p: seq<(K, real)>)
    ensures KeysOf(GroupSum(p)) == Distinct(KeysOf(p))
    ensures forall i :: 0 <= i < |GroupSum(p)| ==> GroupSum(p)[i].1 == SumIf(p, GroupSum(p)[i].0)
  {
  }

  /** Appending a row whose key is already present leaves the distinct keys as they were. */
  lemma DistinctKeysOfExisting<K>(p: seq<(K, real)>, k: K)
    requires k in KeysOf(p)
    ensures k in Distinct(KeysOf(p))
    ensures Distinct(KeysOf(p + [(k, 0.0)])) == Distinct(KeysOf(p))
  {
    KeysOfAppend(p, (k, 0.0));
    DistinctAppend(KeysOf(p), k);
  }

  lemma UpsertExisting<K>(p: seq<(K, real)>, k: K, v: real)
    requires k in KeysOf(p)
    ensures Upsert(GroupSum(p), k, v) == GroupSum(p + [(k, v)])
  {
    var q := p + [(k, v)];
    var d := Distinct(KeysOf(p));
    DistinctKeysOfExisting(p, k);
    assert KeysOf(q) == KeysOf(p + [(k, 0.0)]) by {
      KeysOfAppend(p, (k, v));
      KeysOfAppend(p, (k, 0.0));
    }
    var g := GroupSum(p);
    var g' := GroupSum(q);
    assert KeysOf(g) == d;
    UpsertFound(g, k, v);
    var j := Find(g, k);
    var u := g[j := Bump(g[j], v)];
    assert |g'| == |d| == |u|;
    forall i | 0 <= i < |d| ensures u[i] == g'[i] {
      SumIfAppend(p, (k, v), d[i]);
      assert g'[i] == (d[i], SumIf(q, d[i]));
      if i != j {
        assert d[i] != k;
        assert u[i] == g[i];
      } else {
        assert u[i].0 == g'[i].0;
        assert u[i].1 == g[j].1 + v == g'[i].1;
      }
    }
  }

  lemma UpsertNew<K>(p: seq<(K, real)>, k: K, v: real)
    requires k !in KeysOf(p)
    ensures Upsert(GroupSum(p), k, v) == GroupSum(p + [(k, v)])
  {
    var q := p + [(k, v)];
    var d := Distinct(KeysOf(p));
    var g := GroupSum(p);
    var g' := GroupSum(q);
    assert Distinct(KeysOf(q)) == d + [k] by {
      KeysOfAppend(p, (k, v));
      DistinctAppend(KeysOf(p), k);
    }
    var u := g + [(k, v)];
    assert Upsert(g, k, v) == u by {
      assert KeysOf(g) == d;
      UpsertMissing(g, k, v);
    }
    assert |g'| == |u|;
    forall i | 0 <= i < |u| ensures g'[i] == u[i] {
      if i < |g| {
        SumIfAppend(p, (k, v), d[i]);
        assert g'[i].0 == d[i] == u[i].0;
        assert g'[i].1 == SumIf(p, d[i]) == u[i].1;
      } else {
        SumIfAppend(p, (k, v), k);
        SumIfAbsent(p, k);
        assert g'[i].0 == k == u[i].0;
        assert g'[i].1 == v == u[i].1;
      }
    }
  }

  /** Accumulating rows one by one with Upsert builds exactly the grouped table. */
  lemma UpsertGroupSum<K>(p: seq<(K, real)>, k: K, v: real)
    ensures Upsert(GroupSum(p), k, v) == GroupSum(p + [(k, v)])
  {
    if k in KeysOf(p) {
      UpsertExisting(p, k, v);
    } else {
      UpsertNew(p, k, v);
    }
  }

  /** `groupby(key)[value].sum()` as one pass that keeps a row per key seen so far. */
  method GroupAndSum<K(==)>(p: seq<(K, real)>) returns (g: seq<(K, real)>)
    ensures g == GroupSum(p)
  {
    g := [];
    for i := 0 to |p|
      invariant g == GroupSum(p[..i])
    {
      UpsertGroupSum(p[..i], p[i].0, p[i].1);
      assert p[..i + 1] == p[..i] + [(p[i].0, p[i].1)];
      g := Upsert(g, p[i].0, p[i].1);
    }
    assert p[..|p|] == p;
  }

  lemma {:induction false} UpsertTotal<K>(g: seq<(K, real)>, k: K, v: real)
    ensures Total(Upsert(g, k, v)) == Total(g) + v
  {
    var j := Find(g, k);
    if j < |g| {
      SumByUpdate(g, j, Bump(g[j], v), Value);
    } else {
      SumByAppend(g, (k, v), Value);
    }
  }

  /** Grouping neither creates nor loses value: the group sums add up to the column sum. */
  lemma {:induction false} GroupSumTotal<K>(p: seq<(K, real)>)
    ensures Total(GroupSum(p)) == Total(p)
  {
    if p == [] {
    } else {
      var init := p[..|p| - 1];
      var x := p[|p| - 1];
      assert p == init + [x];
      GroupSumTotal(init);
      UpsertGroupSum(init, x.0, x.1);
      UpsertTotal(GroupSum(init), x.0, x.1);
      SumByAppend(init, x, Value);
    }
  }

  /** Ascending by `key`. */
  predicate SortedBy<A>(s: seq<A>, key: A -> real)
  {
    forall i, j :: 0 <= i < j < |s| ==> key(s[i]) <= key(s[j])
  }

  function InsertBy<A>(x: A, s: seq<A>, key: A -> real): (r: seq<A>)
    ensures |r| == |s| + 1
    ensures multiset(r) == multiset(s) + multiset{x}
  {
    if s == [] then [x]
    else if key(x) <= key(s[0]) then [x] + s
    else
      var r := [s[0]] + InsertBy(x, s[1..], key);
      assert s == [s[0]] + s[1..];
      r
  }

  /** Every element of an insertion is the inserted one or one of the originals. */
  lemma InsertByMembers<A>(x: A, s: seq<A>, key: A -> real)
    ensures forall i :: 0 <= i < |s| + 1 ==> InsertBy(x, s, key)[i] == x || InsertBy(x, s, key)[i] in s
  {
    var r := InsertBy(x, s, key);
    forall i | 0 <= i < |r| ensures r[i] == x || r[i] in s {
      assert r[i] in multiset(r);
    }
  }

  lemma {:induction false} InsertBySorted<A>(x: A, s: seq<A>, key: A -> real)
    requires SortedBy(s, key)
    ensures SortedBy(InsertBy(x, s, key), key)
  {
    if s != [] && key(x) > key(s[0]) {
      var t := s[1..];
      InsertBySorted(x, t, key);
      InsertByMembers(x, t, key);
      var r := InsertBy(x, t, key);
      InsertByTail(s[0], r, key);
      assert InsertBy(x, s, key) == [s[0]] + r;
    }
  }

  /** A head no greater than any element of a sorted tail keeps it sorted. */
  lemma InsertByTail<A>(h: A, r: seq<A>, key: A -> real)
    requires SortedBy(r, key)
    requires forall i :: 0 <= i < |r| ==> key(h) <= key(r[i])
    ensures SortedBy([h] + r, key)
  {
    var out := [h] + r;
    forall i, j | 0 <= i < j < |out| ensures key(out[i]) <= key(out[j]) {
      assert out[j] == r[j - 1];
      if i > 0 {
        assert out[i] == r[i - 1];
      }
    }
  }

  /** `sort_values(key)`: a stable insertion sort. */
  function SortBy<A>(s: seq<A>, key: A -> real): (r: seq<A>)
    ensures |r| == |s|
    ensures multiset(r) == multiset(s)
  {
    if s == [] then []
    else
      assert s == [s[0]] + s[1..];
      InsertBy(s[0], SortBy(s[1..], key), key)
  }

  /** Sorting keeps exactly the elements it was given. */
  lemma SortByMembers<A>(s: seq<A>, key: A -> real)
    ensures forall x :: x in SortBy(s, key) <==> x in s
  {
    forall x ensures x in SortBy(s, key) <==> x in s {
      assert x in SortBy(s, key) <==> x in multiset(SortBy(s, key));
      assert x in s <==> x in multiset(s);
    }
  }

  /** Sorting yields an ordered permutation. */
  lemma {:induction false} SortBySorted<A>(s: seq<A>, key: A -> real)
    ensures SortedBy(SortBy(s, key), key)
  {
    if s != [] {
      SortBySorted(s[1..], key);
      InsertBySorted(s[0], SortBy(s[1..], key), key);
    }
  }

  /** In an ordered sequence the first element has the smallest key and the
      last the largest. */
  lemma SortedEnds<A>(s: seq<A>, key: A -> real, x: A)
    requires SortedBy(s, key) && x in s
    ensures key(s[0]) <= key(x) <= key(s[|s| - 1])
  {
    var k :| 0 <= k < |s| && s[k] == x;
    if 0 < k {
      assert key(s[0]) <= key(s[k]);
    }
    if k < |s| - 1 {
      assert key(s[k]) <= key(s[|s| - 1]);
    }
  }

  /** Reordering rows does not change a column sum. */
  lemma {:induction false} SortByKeepsSum<A>(s: seq<A>, key: A -> real, f: A -> real)
    ensures SumBy(SortBy(s, key), f) == SumBy(s, f)
  {
    if s != [] {
      SortByKeepsSum(s[1..], key, f);
      InsertByKeepsSum(s[0], SortBy(s[1..], key), key, f);
    }
  }

  lemma {:induction false} InsertByKeepsSum<A>(x: A, s: seq<A>, key: A -> real, f: A -> real)
    ensures SumBy(InsertBy(x, s, key), f) == f(x) + SumBy(s, f)
  {
    if s != [] && key(x) > key(s[0]) {
      InsertByKeepsSum(x, s[1..], key, f);
    }
  }

  /** No two elements share an `id`. */
  predicate DistinctBy<A, K(==)>(s: seq<A>, id: A -> K)
  {
    forall i, j :: 0 <= i < j < |s| ==> id(s[i]) != id(s[j])
  }

  /** Inserting an element whose `id` no element has keeps the ids distinct. */
  lemma {:induction false} InsertByDistinct<A, K>(x: A, s: seq<A>, key: A -> real, id: A -> K)
    requires DistinctBy(s, id)
    requires forall i :: 0 <= i < |s| ==> id(s[i]) != id(x)
    ensures DistinctBy(InsertBy(x, s, key), id)
  {
    if s != [] && key(x) > key(s[0]) {
      var t := InsertBy(x, s[1..], key);
      InsertByDistinct(x, s[1..], key, id);
      forall i | 0 <= i < |t| ensures id(t[i]) != id(s[0]) {
        assert t[i] in multiset(t);
        assert t[i] == x || t[i] in s[1..];
      }
      assert InsertBy(x, s, key) == [s[0]] + t;
    }
  }

  /** Sorting keeps distinct ids distinct. */
  lemma {:induction false} SortByDistinct<A, K>(s: seq<A>, key: A -> real, id: A -> K)
    requires DistinctBy(s, id)
    ensures DistinctBy(SortBy(s, key), id)
  {
    if s != [] {
      var t := SortBy(s[1..], key);
      SortByDistinct(s[1..], key, id);
      forall i | 0 <= i < |t| ensures id(t[i]) != id(s[0]) {
        assert t[i] in multiset(s[1..]);
        var k :| 0 <= k < |s[1..]| && s[1..][k] == t[i];
        assert s[1..][k] == s[k + 1];
      }
      InsertByDistinct(s[0], t, key, id);
    }
  }

  /** Two sums agree when their terms agree position by position. */
  lemma {:induction false} SumByPointwise<A, B>(s: seq<A>, f: A -> real, t: seq<B>, g: B -> real)
    requires |s| == |t|
    requires forall i :: 0 <= i < |s| ==> f(s[i]) == g(t[i])
    ensures SumBy(s, f) == SumBy(t, g)
  {
    if s != [] {
      SumByPointwise(s[1..], f, t[1..], g);
    }
  }

  /** Dividing every term by `c` divides the sum by `c`. */
  lemma {:induction false} SumByScaled<A>(s: seq<A>, f: A -> real, g: A -> real, c: real)
    requires c != 0.0
    requires forall i :: 0 <= i < |s| ==> g(s[i]) == f(s[i]) / c
    ensures SumBy(s, g) == SumBy(s, f) / c
  {
    if s != [] {
      SumByScaled(s[1..], f, g, c);
      assert SumBy(s, g) == g(s[0]) + SumBy(s[1..], f) / c;
      assert f(s[0]) / c + SumBy(s[1..], f) / c == (f(s[0]) + SumBy(s[1..], f)) / c;
    }
  }
}
