/** Sequence helpers shared by the screens: the `filter`, `reduce`, `new Set`,
    `Object.groupBy` and `sort` steps that the pages chain together, each
    defined once and proved once. */
module Secuencias {

  datatype Option<+T> = None | Some(value: T)

  /** `Array.prototype.filter`: the elements that satisfy `keep`, in order. */
  function Filter<T(!new)>(s: seq<T>, keep: T -> bool): (r: seq<T>)
    ensures |r| <= |s|
    ensures forall x :: x in r <==> x in s && keep(x)
    decreases |s|
  {
    if |s| == 0 then []
    else if keep(s[0]) then [s[0]] + Filter(s[1..], keep)
    else Filter(s[1..], keep)
  }

  lemma {:induction false} FilterAppend<T(!new)>(a: seq<T>, b: seq<T>, keep: T -> bool)
    ensures Filter(a + b, keep) == Filter(a, keep) + Filter(b, keep)
    decreases |a|
  {
    if |a| == 0 {
      assert a + b == b;
    } else {
      assert (a + b)[0] == a[0];
      assert (a + b)[1..] == a[1..] + b;
      FilterAppend(a[1..], b, keep);
    }
  }

  lemma {:induction false} FilterKeepsAll<T(!new)>(s: seq<T>, keep: T -> bool)
    requires forall x :: x in s ==> keep(x)
    ensures Filter(s, keep) == s
    decreases |s|
  {
    if |s| > 0 {
      assert s[0] in s;
      assert forall x :: x in s[1..] ==> x in s;
      FilterKeepsAll(s[1..], keep);
      assert s == [s[0]] + s[1..];
    }
  }

  lemma {:induction false} FilterDropsAll<T(!new)>(s: seq<T>, keep: T -> bool)
    requires forall x :: x in s ==> !keep(x)
    ensures Filter(s, keep) == []
    decreases |s|
  {
    if |s| > 0 {
      assert forall x :: x in s[1..] ==> x in s;
      FilterDropsAll(s[1..], keep);
    }
  }

  /** Filtering twice is filtering once by both conditions. */
  lemma {:induction false} FilterFilter<T(!new)>(s: seq<T>, a: T -> bool, b: T -> bool, both: T -> bool)
    requires forall x :: both(x) == (a(x) && b(x))
    ensures Filter(Filter(s, a), b) == Filter(s, both)
    decreases |s|
  {
    if |s| > 0 {
      FilterFilter(s[1..], a, b, both);
      if a(s[0]) {
        assert Filter(s, a) == [s[0]] + Filter(s[1..], a);
        assert ([s[0]] + Filter(s[1..], a))[1..] == Filter(s[1..], a);
      }
    }
  }

  /** `reduce((acc, x) => acc + w(x), 0)`. */
  function SumBy<T(!new)>(s: seq<T>, w: T -> int): int
    decreases |s|
  {
    if |s| == 0 then 0 else w(s[0]) + SumBy(s[1..], w)
  }

  /** A sum of non-negative weights is non-negative. */
  lemma {:induction false} SumByNonNegative<T(!new)>(s: seq<T>, w: T -> int)
    requires forall i :: 0 <= i < |s| ==> w(s[i]) >= 0
    ensures SumBy(s, w) >= 0
    decreases |s|
  {
    if |s| > 0 {
      SumByNonNegative(s[1..], w);
    }
  }

  lemma {:induction false} SumByAppend<T(!new)>(a: seq<T>, b: seq<T>, w: T -> int)
    ensures SumBy(a + b, w) == SumBy(a, w) + SumBy(b, w)
    decreases |a|
  {
    if |a| == 0 {
      assert a + b == b;
    } else {
      assert (a + b)[0] == a[0];
      assert (a + b)[1..] == a[1..] + b;
      SumByAppend(a[1..], b, w);
    }
  }

  lemma {:induction false} SumByZero<T(!new)>(s: seq<T>, w: T -> int)
    requires forall x :: x in s ==> w(x) == 0
    ensures SumBy(s, w) == 0
    decreases |s|
  {
    if |s| > 0 {
      assert forall x :: x in s[1..] ==> x in s;
      SumByZero(s[1..], w);
    }
  }

  function One<T(!new)>(x: T): int { 1 }

  lemma {:induction false} SumByOne<T(!new)>(s: seq<T>)
    ensures SumBy(s, One) == |s|
    decreases |s|
  {
    if |s| > 0 {
      SumByOne(s[1..]);
    }
  }

  /** Adds up `w` over each group and then over the groups. */
  function SumGroups<T(!new)>(gs: seq<seq<T>>, w: T -> int): int
    decreases |gs|
  {
    if |gs| == 0 then 0 else SumBy(gs[0], w) + SumGroups(gs[1..], w)
  }

  predicate NoDup<T(==,!new)>(s: seq<T>) {
    forall i, j :: 0 <= i < j < |s| ==> s[i] != s[j]
  }

  function Differs<T(==,!new)>(v: T): T -> bool {
    x => x != v
  }

  /** `[...new Set(s)]`: every value of `s` once, in order of first occurrence. */
  function Distinct<T(==,!new)>(s: seq<T>): (r: seq<T>)
    ensures NoDup(r)
    ensures forall x :: x in r <==> x in s
    ensures |r| <= |s|
    ensures |s| > 0 ==> |r| > 0 && r[0] == s[0]
    decreases |s|
  {
    if |s| == 0 then []
    else
      var rest := Distinct(Filter(s[1..], Differs(s[0])));
      assert s[0] !in rest;
      [s[0]] + rest
  }

  /** The position of the first occurrence of `x` in `s`. */
  function FirstIndex<T(==,!new)>(s: seq<T>, x: T): (i: nat)
    requires x in s
    ensures i < |s| && s[i] == x && x !in s[..i]
    decreases |s|
  {
    if s[0] == x then 0 else 1 + FirstIndex(s[1..], x)
  }

  lemma {:induction false} FirstIndexFilter<T(!new)>(s: seq<T>, v: T, x: T)
    requires x in s && x != v
    ensures FirstIndex(Filter(s, Differs(v)), x) <= FirstIndex(s, x)
    decreases |s|
  {
    if s[0] != x {
      FirstIndexFilter(s[1..], v, x);
    }
  }

  lemma {:induction false} FirstIndexFilterOrder<T(!new)>(s: seq<T>, v: T, x: T, y: T)
    requires x in s && y in s && x != v && y != v
    requires FirstIndex(Filter(s, Differs(v)), x) < FirstIndex(Filter(s, Differs(v)), y)
    ensures FirstIndex(s, x) < FirstIndex(s, y)
    decreases |s|
  {
    var f := Filter(s, Differs(v));
    if s[0] == v {
      assert f == Filter(s[1..], Differs(v));
      FirstIndexFilterOrder(s[1..], v, x, y);
    } else {
      assert f == [s[0]] + Filter(s[1..], Differs(v));
      if s[0] != x {
        assert s[0] != y;
        FirstIndexFilterOrder(s[1..], v, x, y);
      }
    }
  }

  /** The distinct values come out in the order in which they first occur. */
  lemma {:induction false} DistinctFirstOccurrenceOrder<T(!new)>(s: seq<T>, i: nat, j: nat)
    requires i < j < |Distinct(s)|
    ensures FirstIndex(s, Distinct(s)[i]) < FirstIndex(s, Distinct(s)[j])
    decreases |s|
  {
    var d := Distinct(s);
    assert |s| > 0;
    var f := Filter(s[1..], Differs(s[0]));
    var df := Distinct(f);
    assert d == [s[0]] + df;
    assert d[j] == df[j - 1];
    assert d[j] != s[0];
    if i == 0 {
      assert FirstIndex(s, d[0]) == 0;
    } else {
      assert d[i] == df[i - 1] && d[j] == df[j - 1];
      DistinctFirstOccurrenceOrder(f, i - 1, j - 1);
      DistinctTailStep(s, d[i], d[j]);
    }
  }

  lemma {:induction false} DistinctTailStep<T(!new)>(s: seq<T>, x: T, y: T)
    requires |s| > 0
    requires x in Filter(s[1..], Differs(s[0])) && y in Filter(s[1..], Differs(s[0]))
    requires FirstIndex(Filter(s[1..], Differs(s[0])), x) < FirstIndex(Filter(s[1..], Differs(s[0])), y)
    ensures FirstIndex(s, x) < FirstIndex(s, y)
  {
    assert x in s[1..] && x != s[0];
    assert y in s[1..] && y != s[0];
    FirstIndexFilterOrder(s[1..], s[0], x, y);
  }

  /** `s.map(key)`. */
  function MapKey<T(!new), K(!new)>(s: seq<T>, key: T -> K): (r: seq<K>)
    ensures |r| == |s|
    ensures forall i :: 0 <= i < |s| ==> r[i] == key(s[i])
    decreases |s|
  {
    if |s| == 0 then [] else [key(s[0])] + MapKey(s[1..], key)
  }

  function KeyIs<T(!new), K(==,!new)>(key: T -> K, k: K): T -> bool {
    x => key(x) == k
  }

  /** The elements whose key is `k`, in order. */
  function FilterKey<T(!new), K(==,!new)>(s: seq<T>, key: T -> K, k: K): (r: seq<T>)
    ensures forall x :: x in r <==> x in s && key(x) == k
  {
    Filter(s, KeyIs(key, k))
  }

  lemma {:induction false} FilterKeyCons<T(!new), K(!new)>(x: T, s: seq<T>, key: T -> K, k: K)
    ensures FilterKey([x] + s, key, k)
         == (if key(x) == k then [x] else []) + FilterKey(s, key, k)
  {
    assert ([x] + s)[0] == x;
    assert ([x] + s)[1..] == s;
  }

  lemma {:induction false} FilterKeyFirst<T(!new), K(!new)>(s: seq<T>, key: T -> K)
    requires |s| > 0
    ensures |FilterKey(s, key, key(s[0]))| > 0 && FilterKey(s, key, key(s[0]))[0] == s[0]
  {
  }

  function Groups<T(!new), K(==,!new)>(s: seq<T>, key: T -> K, ks: seq<K>): (gs: seq<seq<T>>)
    ensures |gs| == |ks|
    ensures forall i :: 0 <= i < |ks| ==> gs[i] == FilterKey(s, key, ks[i])
    decreases |ks|
  {
    if |ks| == 0 then [] else [FilterKey(s, key, ks[0])] + Groups(s, key, ks[1..])
  }

  /** `Object.values(Object.groupBy(s, key))`: one group per key, keys in
      order of first occurrence, each group in input order. */
  function GroupBy<T(!new), K(==,!new)>(s: seq<T>, key: T -> K): (gs: seq<seq<T>>)
  {
    Groups(s, key, Distinct(MapKey(s, key)))
  }

  /** `gs` splits `s` by key: every group is non-empty and holds exactly the
      elements of `s` with its key, in input order; no two groups share a key;
      every element of `s` is in a group. */
  ghost predicate Partition<T(!new), K(!new)>(s: seq<T>, gs: seq<seq<T>>, key: T -> K) {
    && (forall i :: 0 <= i < |gs| ==> |gs[i]| > 0 && gs[i] == FilterKey(s, key, key(gs[i][0])))
    && (forall i, j :: 0 <= i < j < |gs| ==> key(gs[i][0]) != key(gs[j][0]))
    && (forall x :: x in s ==> exists i :: 0 <= i < |gs| && x in gs[i])
  }

  lemma {:induction false} GroupNonEmpty<T(!new), K(!new)>(s: seq<T>, key: T -> K, i: nat)
    requires i < |GroupBy(s, key)|
    ensures |GroupBy(s, key)[i]| > 0 && key(GroupBy(s, key)[i][0]) == Distinct(MapKey(s, key))[i]
  {
    var ks := Distinct(MapKey(s, key));
    var g := GroupBy(s, key)[i];
    assert g == FilterKey(s, key, ks[i]);
    assert ks[i] in MapKey(s, key);
    var m :| 0 <= m < |s| && MapKey(s, key)[m] == ks[i];
    assert s[m] in g;
    assert g[0] in g;
  }

  lemma {:induction false} InSomeGroup<T(!new), K(!new)>(s: seq<T>, key: T -> K, x: T)
    requires x in s
    ensures exists i :: 0 <= i < |GroupBy(s, key)| && x in GroupBy(s, key)[i]
  {
    var ks := Distinct(MapKey(s, key));
    var m :| 0 <= m < |s| && s[m] == x;
    assert MapKey(s, key)[m] == key(x);
    assert key(x) in MapKey(s, key);
    assert key(x) in ks;
    var i :| 0 <= i < |ks| && ks[i] == key(x);
    assert GroupBy(s, key)[i] == FilterKey(s, key, ks[i]);
    assert x in FilterKey(s, key, ks[i]);
  }

  lemma {:induction false} GroupByPartition<T(!new), K(!new)>(s: seq<T>, key: T -> K)
    ensures Partition(s, GroupBy(s, key), key)
    ensures |GroupBy(s, key)| == |Distinct(MapKey(s, key))|
    ensures |s| > 0 ==> |GroupBy(s, key)| > 0 && GroupBy(s, key)[0][0] == s[0]
  {
    var ks := Distinct(MapKey(s, key));
    var gs := GroupBy(s, key);
    forall i | 0 <= i < |gs|
      ensures |gs[i]| > 0 && key(gs[i][0]) == ks[i]
    {
      GroupNonEmpty(s, key, i);
    }
    forall x | x in s
      ensures exists i :: 0 <= i < |gs| && x in gs[i]
    {
      InSomeGroup(s, key, x);
    }
    if |s| > 0 {
      FilterKeyFirst(s, key);
    }
  }

  /** `Object.groupBy` keeps keys in order of first occurrence: group `i`
      comes before group `j` exactly because its key shows up earlier. */
  lemma {:induction false} GroupByOrder<T(!new), K(!new)>(s: seq<T>, key: T -> K, i: nat, j: nat)
    requires i < j < |GroupBy(s, key)|
    ensures |GroupBy(s, key)[i]| > 0 && |GroupBy(s, key)[j]| > 0
    ensures key(GroupBy(s, key)[i][0]) in MapKey(s, key) && key(GroupBy(s, key)[j][0]) in MapKey(s, key)
    ensures FirstIndex(MapKey(s, key), key(GroupBy(s, key)[i][0]))
          < FirstIndex(MapKey(s, key), key(GroupBy(s, key)[j][0]))
  {
    var ks := Distinct(MapKey(s, key));
    var gs := GroupBy(s, key);
    GroupByPartition(s, key);
    assert gs[i][0] in gs[i] && gs[j][0] in gs[j];
    assert key(gs[i][0]) == ks[i] && key(gs[j][0]) == ks[j];
    DistinctFirstOccurrenceOrder(MapKey(s, key), i, j);
  }

  /** In a partition an element lies in one group only. */
  lemma {:induction false} PartitionUnique<T(!new), K(!new)>(s: seq<T>, gs: seq<seq<T>>, key: T -> K, x: T, i: nat, j: nat)
    requires Partition(s, gs, key)
    requires i < |gs| && j < |gs| && x in gs[i] && x in gs[j]
    ensures i == j
  {
    assert key(x) == key(gs[i][0]) && key(x) == key(gs[j][0]);
  }

  function SumFiltered<T(!new), K(==,!new)>(s: seq<T>, key: T -> K, ks: seq<K>, w: T -> int): int
    decreases |ks|
  {
    if |ks| == 0 then 0 else SumBy(FilterKey(s, key, ks[0]), w) + SumFiltered(s, key, ks[1..], w)
  }

  lemma {:induction false} SumFilteredCons<T(!new), K(!new)>(x: T, s: seq<T>, key: T -> K, ks: seq<K>, w: T -> int)
    ensures SumFiltered([x] + s, key, ks, w) == SumFiltered([x], key, ks, w) + SumFiltered(s, key, ks, w)
    decreases |ks|
  {
    if |ks| > 0 {
      FilterKeyCons(x, s, key, ks[0]);
      FilterKeyCons(x, [], key, ks[0]);
      assert [x] + [] == [x];
      SumByAppend(if key(x) == ks[0] then [x] else [], FilterKey(s, key, ks[0]), w);
      SumFilteredCons(x, s, key, ks[1..], w);
    }
  }

  lemma {:induction false} SumFilteredSingle<T(!new), K(!new)>(x: T, key: T -> K, ks: seq<K>, w: T -> int)
    requires NoDup(ks)
    ensures SumFiltered([x], key, ks, w) == if key(x) in ks then w(x) else 0
    decreases |ks|
  {
    if |ks| > 0 {
      FilterKeyCons(x, [], key, ks[0]);
      assert [x] + [] == [x];
      assert NoDup(ks[1..]);
      SumFilteredSingle(x, key, ks[1..], w);
      assert FilterKey([], key, ks[0]) == [];
      if key(x) == ks[0] {
        assert key(x) !in ks[1..];
        assert [x][1..] == [];
        assert SumBy([x], w) == w(x);
      }
    }
  }

  lemma {:induction false} SumFilteredCovers<T(!new), K(!new)>(s: seq<T>, key: T -> K, ks: seq<K>, w: T -> int)
    requires NoDup(ks)
    requires forall x :: x in s ==> key(x) in ks
    ensures SumFiltered(s, key, ks, w) == SumBy(s, w)
    decreases |s|
  {
    if |s| == 0 {
      SumFilteredEmpty(key, ks, w);
    } else {
      assert s == [s[0]] + s[1..];
      SumFilteredCons(s[0], s[1..], key, ks, w);
      SumFilteredSingle(s[0], key, ks, w);
      assert forall x :: x in s[1..] ==> x in s;
      SumFilteredCovers(s[1..], key, ks, w);
    }
  }

  lemma {:induction false} SumFilteredEmpty<T(!new), K(!new)>(key: T -> K, ks: seq<K>, w: T -> int)
    ensures SumFiltered([], key, ks, w) == 0
    decreases |ks|
  {
    if |ks| > 0 {
      SumFilteredEmpty(key, ks[1..], w);
    }
  }

  lemma {:induction false} SumGroupsFiltered<T(!new), K(!new)>(s: seq<T>, gs: seq<seq<T>>, key: T -> K, ks: seq<K>, w: T -> int)
    requires |gs| == |ks|
    requires forall i :: 0 <= i < |gs| ==> gs[i] == FilterKey(s, key, ks[i])
    ensures SumGroups(gs, w) == SumFiltered(s, key, ks, w)
    decreases |gs|
  {
    if |gs| > 0 {
      SumGroupsFiltered(s, gs[1..], key, ks[1..], w);
    }
  }

  /** Adding up per group gives the sum over the whole input: nothing is
      counted twice and nothing is lost. */
  lemma {:induction false} PartitionSum<T(!new), K(!new)>(s: seq<T>, gs: seq<seq<T>>, key: T -> K, w: T -> int)
    requires Partition(s, gs, key)
    ensures SumGroups(gs, w) == SumBy(s, w)
  {
    var ks := seq(|gs|, i requires 0 <= i < |gs| => key(gs[i][0]));
    SumGroupsFiltered(s, gs, key, ks, w);
    forall x | x in s
      ensures key(x) in ks
    {
      var i :| 0 <= i < |gs| && x in gs[i];
      assert key(x) == ks[i];
    }
    SumFilteredCovers(s, key, ks, w);
  }

  /** With `w` = 1: the group sizes add up to the input size. */
  lemma {:induction false} PartitionCount<T(!new), K(!new)>(s: seq<T>, gs: seq<seq<T>>, key: T -> K)
    requires Partition(s, gs, key)
    ensures SumGroups(gs, One) == |s|
  {
    PartitionSum(s, gs, key, One);
    SumByOne(s);
  }

  lemma {:induction false} NoDupCount<T(!new)>(s: seq<T>, v: T)
    requires NoDup(s)
    ensures multiset(s)[v] <= 1
    decreases |s|
  {
    if |s| > 0 {
      assert s == [s[0]] + s[1..];
      assert NoDup(s[1..]);
      NoDupCount(s[1..], v);
      if s[0] == v {
        assert v !in s[1..];
      }
    }
  }

  lemma {:induction false} DupCount<T(!new)>(s: seq<T>, i: nat, j: nat)
    requires i < j < |s| && s[i] == s[j]
    ensures multiset(s)[s[i]] >= 2
  {
    assert s == s[..j] + s[j..];
    assert s[i] in s[..j];
    assert s[j] in s[j..];
  }

  /** Reordering the groups keeps them a partition. */
  lemma {:induction false} PartitionPermuted<T(!new), K(!new)>(s: seq<T>, gs: seq<seq<T>>, rs: seq<seq<T>>, key: T -> K)
    requires Partition(s, gs, key)
    requires multiset(rs) == multiset(gs)
    ensures Partition(s, rs, key)
    ensures |rs| == |gs|
  {
    assert |multiset(rs)| == |multiset(gs)|;
    forall i | 0 <= i < |rs|
      ensures |rs[i]| > 0 && rs[i] == FilterKey(s, key, key(rs[i][0]))
    {
      assert rs[i] in multiset(rs);
      assert rs[i] in gs;
    }
    assert NoDup(gs);
    forall i, j | 0 <= i < j < |rs|
      ensures key(rs[i][0]) != key(rs[j][0])
    {
      if key(rs[i][0]) == key(rs[j][0]) {
        assert rs[i] in multiset(rs) && rs[j] in multiset(rs);
        assert rs[i] == rs[j];
        DupCount(rs, i, j);
        NoDupCount(gs, rs[i]);
        assert false;
      }
    }
    forall x | x in s
      ensures exists i :: 0 <= i < |rs| && x in rs[i]
    {
      var k :| 0 <= k < |gs| && x in gs[k];
      assert gs[k] in multiset(gs);
      assert gs[k] in rs;
      var i :| 0 <= i < |rs| && rs[i] == gs[k];
    }
  }

  predicate SortedBy<T(!new)>(s: seq<T>, f: T -> int) {
    forall i, j :: 0 <= i < j < |s| ==> f(s[i]) <= f(s[j])
  }

  /** Puts `x` before the first element whose key is not smaller. */
  function Insert<T(!new)>(x: T, s: seq<T>, f: T -> int): (r: seq<T>)
    ensures multiset(r) == multiset(s) + multiset{x}
    ensures |r| == |s| + 1
    decreases |s|
  {
    if |s| == 0 then [x]
    else if f(x) <= f(s[0]) then [x] + s
    else
      assert s == [s[0]] + s[1..];
      [s[0]] + Insert(x, s[1..], f)
  }

  lemma {:induction false} InsertSorted<T(!new)>(x: T, s: seq<T>, f: T -> int)
    requires SortedBy(s, f)
    ensures SortedBy(Insert(x, s, f), f)
    decreases |s|
  {
    if |s| > 0 && f(x) > f(s[0]) {
      var t := Insert(x, s[1..], f);
      InsertSorted(x, s[1..], f);
      forall k | 0 <= k < |t|
        ensures f(s[0]) <= f(t[k])
      {
        assert t[k] in multiset(t);
        if t[k] != x {
          assert t[k] in multiset(s[1..]);
          var m :| 0 <= m < |s[1..]| && s[1..][m] == t[k];
          assert s[m + 1] == t[k];
        }
      }
      assert Insert(x, s, f) == [s[0]] + t;
    }
  }

  lemma {:induction false} InsertSum<T(!new)>(x: T, s: seq<T>, f: T -> int, w: T -> int)
    ensures SumBy(Insert(x, s, f), w) == w(x) + SumBy(s, w)
    decreases |s|
  {
    if |s| > 0 && f(x) > f(s[0]) {
      InsertSum(x, s[1..], f, w);
    }
  }

  /** A stable sort by ascending `f` (`sort((a, b) => f(a) - f(b))`). */
  function SortBy<T(!new)>(s: seq<T>, f: T -> int): (r: seq<T>)
    ensures SortedBy(r, f)
    ensures multiset(r) == multiset(s)
    ensures |r| == |s|
    decreases |s|
  {
    if |s| == 0 then []
    else
      assert s == [s[0]] + s[1..];
      InsertSorted(s[0], SortBy(s[1..], f), f);
      Insert(s[0], SortBy(s[1..], f), f)
  }

  lemma {:induction false} SortBySum<T(!new)>(s: seq<T>, f: T -> int, w: T -> int)
    ensures SumBy(SortBy(s, f), w) == SumBy(s, w)
    decreases |s|
  {
    if |s| > 0 {
      SortBySum(s[1..], f, w);
      InsertSum(s[0], SortBy(s[1..], f), f, w);
    }
  }

  lemma {:induction false} SortByGroupsSum<T(!new)>(gs: seq<seq<T>>, f: seq<T> -> int, w: T -> int)
    ensures SumGroups(SortBy(gs, f), w) == SumGroups(gs, w)
    decreases |gs|
  {
    if |gs| > 0 {
      SortByGroupsSum(gs[1..], f, w);
      InsertGroupsSum(gs[0], SortBy(gs[1..], f), f, w);
    }
  }

  lemma {:induction false} InsertGroupsSum<T(!new)>(g: seq<T>, gs: seq<seq<T>>, f: seq<T> -> int, w: T -> int)
    ensures SumGroups(Insert(g, gs, f), w) == SumBy(g, w) + SumGroups(gs, w)
    decreases |gs|
  {
    if |gs| > 0 && f(g) > f(gs[0]) {
      InsertGroupsSum(g, gs[1..], f, w);
    }
  }
}
