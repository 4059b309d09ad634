/** `collections.Counter` and pandas' `value_counts` as the analyser uses them: occurrence counts,
    and the list of (element, count) pairs in descending count order, ties in order of first
    occurrence (`Counter(xs).most_common(n)`). */
module Counter {
  import opened Python

  /** How many times `x` occurs in `xs`. */
  function Count<T(==)>(xs: seq<T>, x: T): nat {
    if xs == [] then 0 else Count(xs[..|xs| - 1], x) + (if xs[|xs| - 1] == x then 1 else 0)
  }

  lemma {:induction false} CountAbsent<T>(xs: seq<T>, x: T)
    requires x !in xs
    ensures Count(xs, x) == 0
  {
    if xs != [] {
      assert x !in xs[..|xs| - 1];
      CountAbsent(xs[..|xs| - 1], x);
    }
  }

  lemma {:induction false} CountPresent<T>(xs: seq<T>, x: T)
    requires x in xs
    ensures Count(xs, x) >= 1
  {
    if xs[|xs| - 1] != x {
      assert x in xs[..|xs| - 1];
      CountPresent(xs[..|xs| - 1], x);
    }
  }

  /** Three different elements together occur at most `|xs|` times. */
  lemma {:induction false} CountThreeBounded<T>(xs: seq<T>, a: T, b: T, c: T)
    requires a != b && b != c && a != c
    ensures Count(xs, a) + Count(xs, b) + Count(xs, c) <= |xs|
  {
    if xs != [] {
      CountThreeBounded(xs[..|xs| - 1], a, b, c);
    }
  }

  /** The position of the first occurrence of `x` in `xs`, or `|xs|` when it does not occur. */
  function FirstIndex<T(==)>(xs: seq<T>, x: T): (r: nat)
    ensures r <= |xs|
    ensures r < |xs| <==> x in xs
    ensures r < |xs| ==> xs[r] == x
    ensures forall k :: 0 <= k < r ==> xs[k] != x
  {
    if xs == [] then 0 else if xs[0] == x then 0 else 1 + FirstIndex(xs[1..], x)
  }

  /** The elements of `xs` without repetitions, in order of first occurrence
      (the key order of a `Counter` built from `xs`). */
  function Distinct<T(==)>(xs: seq<T>): (r: seq<T>)
    ensures forall i :: 0 <= i < |r| ==> r[i] in xs
    ensures forall k :: 0 <= k < |xs| ==> xs[k] in r
    ensures forall i, j :: 0 <= i < j < |r| ==> r[i] != r[j]
  {
    if xs == [] then []
    else
      var d := Distinct(xs[..|xs| - 1]);
      if xs[|xs| - 1] in d then d else d + [xs[|xs| - 1]]
  }

  /** `a` comes before `b` in `most_common`: a higher count, or the same count and an earlier
      first occurrence. */
  predicate Precedes<T(==)>(xs: seq<T>, a: T, b: T) {
    Count(xs, a) > Count(xs, b) || (Count(xs, a) == Count(xs, b) && FirstIndex(xs, a) < FirstIndex(xs, b))
  }

  predicate Ranked<T(==)>(xs: seq<T>, s: seq<T>) {
    forall i, j :: 0 <= i < j < |s| ==> Precedes(xs, s[i], s[j])
  }

  function Insert<T(==)>(xs: seq<T>, x: T, s: seq<T>): seq<T> {
    if s == [] then [x]
    else if Precedes(xs, s[0], x) then [s[0]] + Insert(xs, x, s[1..])
    else [x] + s
  }

  /** Insertion sort of `ds` by `Precedes`. */
  function SortByRank<T(==)>(xs: seq<T>, ds: seq<T>): seq<T> {
    if ds == [] then [] else Insert(xs, ds[0], SortByRank(xs, ds[1..]))
  }

  lemma {:induction false} InsertRanked<T>(xs: seq<T>, x: T, s: seq<T>)
    requires x in xs && x !in s
    requires forall y :: y in s ==> y in xs
    requires Ranked(xs, s)
    ensures multiset(Insert(xs, x, s)) == multiset(s) + multiset{x}
    ensures Ranked(xs, Insert(xs, x, s))
  {
    if s != [] && Precedes(xs, s[0], x) {
      InsertRanked(xs, x, s[1..]);
      assert s == [s[0]] + s[1..];
      var r := Insert(xs, x, s[1..]);
      forall y | y in r ensures Precedes(xs, s[0], y) {
        assert y in multiset(r);
        if y != x {
          assert y in s[1..];
        }
      }
    } else if s != [] {
      var r := [x] + s;
      forall i, j | 0 <= i < j < |r| ensures Precedes(xs, r[i], r[j]) {
        if i == 0 {
          assert FirstIndex(xs, x) != FirstIndex(xs, s[0]);
          if j > 1 {
            assert Precedes(xs, s[0], s[j - 1]);
          }
        }
      }
    }
  }

  lemma {:induction false} SortByRankRanked<T>(xs: seq<T>, ds: seq<T>)
    requires forall y :: y in ds ==> y in xs
    requires forall i, j :: 0 <= i < j < |ds| ==> ds[i] != ds[j]
    ensures multiset(SortByRank(xs, ds)) == multiset(ds)
    ensures Ranked(xs, SortByRank(xs, ds))
  {
    if ds != [] {
      SortByRankRanked(xs, ds[1..]);
      var s := SortByRank(xs, ds[1..]);
      assert ds == [ds[0]] + ds[1..];
      assert ds[0] !in ds[1..];
      assert ds[0] !in multiset(s);
      forall y | y in s ensures y in xs {
        assert y in multiset(ds[1..]);
      }
      InsertRanked(xs, ds[0], s);
    }
  }

  /** The distinct elements of `xs` in `most_common` order. */
  function Ranking<T(==)>(xs: seq<T>): (r: seq<T>)
    ensures |r| == |Distinct(xs)|
    ensures forall i :: 0 <= i < |r| ==> r[i] in xs
    ensures forall k :: 0 <= k < |xs| ==> xs[k] in r
    ensures forall i, j :: 0 <= i < j < |r| ==> r[i] != r[j]
    ensures Ranked(xs, r)
  {
    var d := Distinct(xs);
    SortByRankRanked(xs, d);
    var r := SortByRank(xs, d);
    assert |r| == |multiset(r)| == |multiset(d)| == |d|;
    forall i | 0 <= i < |r| ensures r[i] in xs {
      assert r[i] in multiset(r);
    }
    forall k | 0 <= k < |xs| ensures xs[k] in r {
      assert xs[k] in multiset(d);
    }
    forall i, j | 0 <= i < j < |r| ensures r[i] != r[j] {
      assert FirstIndex(xs, r[i]) < |xs|;
    }
    r
  }

  /** `Counter(xs).most_common(n)`: the (element, count) pairs of the `n` most common elements
      (none when `n <= 0`). */
  function MostCommon<T(==)>(xs: seq<T>, n: int): (r: seq<(T, nat)>)
    ensures |r| == if n <= 0 then 0 else if |Distinct(xs)| <= n then |Distinct(xs)| else n
  {
    var top := if n <= 0 then [] else SliceTo(Ranking(xs), n);
    seq(|top|, i requires 0 <= i < |top| => (top[i], Count(xs, top[i])))
  }

  /** The pairs of `most_common` are distinct elements of `xs` with their true counts, in
      descending count order with ties in order of first occurrence, and no element left out
      ranks above one that was kept. */
  lemma MostCommonSpec<T>(xs: seq<T>, n: int)
    ensures var r := MostCommon(xs, n);
      && (forall i :: 0 <= i < |r| ==> r[i].0 in xs && r[i].1 == Count(xs, r[i].0) && r[i].1 >= 1)
      && (forall i, j :: 0 <= i < j < |r| ==> r[i].0 != r[j].0)
      && (forall i, j :: 0 <= i < j < |r| ==>
            r[i].1 > r[j].1 || (r[i].1 == r[j].1 && FirstIndex(xs, r[i].0) < FirstIndex(xs, r[j].0)))
      && (forall i, x :: 0 <= i < |r| && x in xs && (forall j :: 0 <= j < |r| ==> r[j].0 != x) ==>
            Precedes(xs, r[i].0, x))
  {
    MostCommonCounts(xs, n);
    MostCommonRanked(xs, n);
  }

  /** The pairs are distinct elements of `xs`, each with its true, positive count. */
  lemma MostCommonCounts<T>(xs: seq<T>, n: int)
    ensures var r := MostCommon(xs, n);
      && (forall i :: 0 <= i < |r| ==> r[i].0 in xs && r[i].1 == Count(xs, r[i].0) && r[i].1 >= 1)
      && (forall i, j :: 0 <= i < j < |r| ==> r[i].0 != r[j].0)
  {
    var r := MostCommon(xs, n);
    var s := Ranking(xs);
    forall i | 0 <= i < |r| ensures r[i].0 == s[i] && r[i].0 in xs {
    }
    forall i | 0 <= i < |r| ensures r[i].1 >= 1 {
      CountPresent(xs, r[i].0);
    }
  }

  /** The pairs run in `Precedes` order, and every element left out comes after every one kept. */
  lemma MostCommonRanked<T>(xs: seq<T>, n: int)
    ensures var r := MostCommon(xs, n);
      && (forall i, j :: 0 <= i < j < |r| ==> Precedes(xs, r[i].0, r[j].0))
      && (forall i, x :: 0 <= i < |r| && x in xs && (forall j :: 0 <= j < |r| ==> r[j].0 != x) ==>
            Precedes(xs, r[i].0, x))
  {
    var r := MostCommon(xs, n);
    var s := Ranking(xs);
    forall i | 0 <= i < |r| ensures r[i].0 == s[i] {
    }
    forall i, x | 0 <= i < |r| && x in xs && (forall j :: 0 <= j < |r| ==> r[j].0 != x)
      ensures Precedes(xs, r[i].0, x)
    {
      var k :| 0 <= k < |s| && s[k] == x;
    }
  }

  /** `d.get(key, default)` on the dict built from a list of pairs. */
  function Lookup<T(==)>(pairs: seq<(T, nat)>, key: T, default: nat): nat {
    if pairs == [] then default
    else if pairs[0].0 == key then pairs[0].1
    else Lookup(pairs[1..], key, default)
  }

  /** Looking an element up in the full ranking (`value_counts().to_dict().get(k, 0)`) yields its
      number of occurrences, 0 when it does not occur. */
  lemma LookupAllCounts<T>(xs: seq<T>, key: T)
    ensures Lookup(MostCommon(xs, |xs|), key, 0) == Count(xs, key)
  {
    var r := MostCommon(xs, |xs|);
    MostCommonSpec(xs, |xs|);
    assert |Distinct(xs)| <= |xs| by {
      DistinctNoLonger(xs);
    }
    var s := Ranking(xs);
    assert |r| == |s|;
    forall i | 0 <= i < |r| ensures r[i].0 == s[i] {
    }
    if key in xs {
      var k :| 0 <= k < |s| && s[k] == key;
      LookupAt(r, k, key);
    } else {
      CountAbsent(xs, key);
      LookupMissing(r, key);
    }
  }

  lemma {:induction false} DistinctNoLonger<T>(xs: seq<T>)
    ensures |Distinct(xs)| <= |xs|
  {
    if xs != [] {
      DistinctNoLonger(xs[..|xs| - 1]);
    }
  }

  lemma {:induction false} LookupAt<T>(pairs: seq<(T, nat)>, k: nat, key: T)
    requires k < |pairs| && pairs[k].0 == key
    requires forall i :: 0 <= i < k ==> pairs[i].0 != key
    ensures Lookup(pairs, key, 0) == pairs[k].1
  {
    if k > 0 {
      LookupAt(pairs[1..], k - 1, key);
    }
  }

  lemma {:induction false} LookupMissing<T>(pairs: seq<(T, nat)>, key: T)
    requires forall i :: 0 <= i < |pairs| ==> pairs[i].0 != key
    ensures Lookup(pairs, key, 0) == 0
  {
    if pairs != [] {
      LookupMissing(pairs[1..], key);
    }
  }
}
