/**
 * The statistics the benchmark suite reports over a list of samples
 * (latencies in milliseconds, CPU percentages, memory in megabytes):
 * sum, arithmetic mean, median, minimum, maximum and ascending sort, with
 * an order-statistic characterisation of "the element at index k of the
 * sorted samples" and proofs that every statistic depends only on the
 * multiset of samples, not on the order they arrived in.
 */
module Statistics {

  /** Sum of the samples, left to right. */
  function Sum(s: seq<real>): real
  {
    if s == [] then 0.0 else s[0] + Sum(s[1..])
  }

  /** The largest sample (Python's max). */
  function Max(s: seq<real>): (m: real)
    requires s != []
    ensures m in s
    ensures forall x :: x in s ==> x <= m
  {
    if |s| == 1 then s[0]
    else
      var rest := Max(s[1..]);
      assert forall x :: x in s ==> x == s[0] || x in s[1..];
      if s[0] >= rest then s[0] else rest
  }

  /** The smallest sample (Python's min). */
  function Min(s: seq<real>): (m: real)
    requires s != []
    ensures m in s
    ensures forall x :: x in s ==> m <= x
  {
    if |s| == 1 then s[0]
    else
      var rest := Min(s[1..]);
      assert forall x :: x in s ==> x == s[0] || x in s[1..];
      if s[0] <= rest then s[0] else rest
  }

  /** Arithmetic mean (Python's statistics.mean, computed exactly). */
  function Mean(s: seq<real>): (r: real)
    requires s != []
  {
    Sum(s) / (|s| as real)
  }

  ghost predicate Sorted(s: seq<real>)
  {
    forall i, j :: 0 <= i < j < |s| ==> s[i] <= s[j]
  }

  /** Inserts x into an ascending sequence. */
  function Insert(x: real, s: seq<real>): (r: seq<real>)
    requires Sorted(s)
    ensures Sorted(r)
    ensures multiset(r) == multiset(s) + multiset{x}
  {
    if s == [] then [x]
    else if x <= s[0] then [x] + s
    else
      var t := Insert(x, s[1..]);
      assert s == [s[0]] + s[1..];
      LowerBoundKept(s[0], x, s[1..], t);
      SortedCons(s[0], t);
      [s[0]] + t
  }

  lemma LowerBoundKept(h: real, x: real, s: seq<real>, t: seq<real>)
    requires h <= x && multiset(t) == multiset(s) + multiset{x}
    requires forall k :: 0 <= k < |s| ==> h <= s[k]
    ensures forall k :: 0 <= k < |t| ==> h <= t[k]
  {
    forall k | 0 <= k < |t|
      ensures h <= t[k]
    {
      assert t[k] in multiset(t);
      assert t[k] == x || t[k] in multiset(s);
    }
  }

  lemma SortedCons(h: real, t: seq<real>)
    requires Sorted(t)
    requires forall k :: 0 <= k < |t| ==> h <= t[k]
    ensures Sorted([h] + t)
  {
  }

  /** Python's sorted: the ascending permutation of the samples. */
  function Sort(s: seq<real>): (r: seq<real>)
    ensures Sorted(r)
    ensures multiset(r) == multiset(s)
    ensures |r| == |s|
  {
    if s == [] then []
    else
      assert s == [s[0]] + s[1..];
      var r := Insert(s[0], Sort(s[1..]));
      assert |r| == |multiset(r)| == |multiset(s)| == |s|;
      r
  }

  /** Python's statistics.median: the middle element of the sorted samples,
      or the mean of the two middle elements when their number is even. */
  function Median(s: seq<real>): real
    requires s != []
  {
    Middle(Sort(s))
  }

  /** The middle element of a non-empty sequence, or the mean of its two
      middle elements when its length is even. */
  function Middle(t: seq<real>): real
    requires t != []
  {
    var n := |t|;
    if n % 2 == 1 then t[n / 2] else (t[n / 2 - 1] + t[n / 2]) / 2.0
  }

  /** Number of samples strictly below v. */
  function CountBelow(s: seq<real>, v: real): (c: nat)
    ensures c <= |s|
  {
    if s == [] then 0 else (if s[0] < v then 1 else 0) + CountBelow(s[1..], v)
  }

  /** Number of samples at most v. */
  function CountAtMost(s: seq<real>, v: real): (c: nat)
    ensures c <= |s|
  {
    if s == [] then 0 else (if s[0] <= v then 1 else 0) + CountAtMost(s[1..], v)
  }

  /** v is the k-th smallest sample (counting from 0): it is a sample, at most
      k samples lie strictly below it and more than k lie at or below it. */
  ghost predicate IsOrderStatistic(s: seq<real>, k: nat, v: real)
  {
    v in s && CountBelow(s, v) <= k < CountAtMost(s, v)
  }

  // ---------------------------------------------------------------------
  // Lemmas about counts

  lemma {:induction false} CountsAppend(a: seq<real>, b: seq<real>, v: real)
    ensures CountBelow(a + b, v) == CountBelow(a, v) + CountBelow(b, v)
    ensures CountAtMost(a + b, v) == CountAtMost(a, v) + CountAtMost(b, v)
  {
    if a != [] {
      assert (a + b)[0] == a[0];
      assert (a + b)[1..] == a[1..] + b;
      CountsAppend(a[1..], b, v);
    } else {
      assert a + b == b;
    }
  }

  lemma {:induction false} CountsInsert(x: real, s: seq<real>, v: real)
    requires Sorted(s)
    ensures CountBelow(Insert(x, s), v) == (if x < v then 1 else 0) + CountBelow(s, v)
    ensures CountAtMost(Insert(x, s), v) == (if x <= v then 1 else 0) + CountAtMost(s, v)
  {
    if s == [] {
      assert Insert(x, s) == [x];
      assert [x][1..] == [];
    } else if x <= s[0] {
      var r := [x] + s;
      assert Insert(x, s) == r;
      assert r[0] == x && r[1..] == s;
    } else {
      SortedTail(s);
      var t := Insert(x, s[1..]);
      var r := [s[0]] + t;
      assert Insert(x, s) == r;
      assert r[0] == s[0] && r[1..] == t;
      CountsInsert(x, s[1..], v);
    }
  }

  /** Sorting does not change how many samples lie below or at a value. */
  lemma {:induction false} CountsSort(s: seq<real>, v: real)
    ensures CountBelow(Sort(s), v) == CountBelow(s, v)
    ensures CountAtMost(Sort(s), v) == CountAtMost(s, v)
  {
    if s != [] {
      CountsSort(s[1..], v);
      CountsInsert(s[0], Sort(s[1..]), v);
    }
  }

  lemma {:induction false} CountBelowNone(s: seq<real>, v: real)
    requires forall i :: 0 <= i < |s| ==> v <= s[i]
    ensures CountBelow(s, v) == 0
  {
    if s != [] {
      CountBelowNone(s[1..], v);
    }
  }

  lemma {:induction false} CountAtMostAll(s: seq<real>, v: real)
    requires forall i :: 0 <= i < |s| ==> s[i] <= v
    ensures CountAtMost(s, v) == |s|
  {
    if s != [] {
      CountAtMostAll(s[1..], v);
    }
  }

  /** In an ascending sequence the element at index k is its k-th order statistic. */
  lemma SortedIndexIsOrderStatistic(t: seq<real>, k: nat)
    requires Sorted(t) && k < |t|
    ensures IsOrderStatistic(t, k, t[k])
  {
    assert t == t[..k] + t[k..];
    CountsAppend(t[..k], t[k..], t[k]);
    CountBelowNone(t[k..], t[k]);
    assert t == t[..k+1] + t[k+1..];
    CountsAppend(t[..k+1], t[k+1..], t[k]);
    CountAtMostAll(t[..k+1], t[k]);
  }

  /** The element at index k of Python's sorted(s) is the k-th smallest sample. */
  lemma SortIndexIsOrderStatistic(s: seq<real>, k: nat)
    requires k < |s|
    ensures IsOrderStatistic(s, k, Sort(s)[k])
  {
    var t := Sort(s);
    SortedIndexIsOrderStatistic(t, k);
    CountsSort(s, t[k]);
    assert t[k] in multiset(t);
  }

  lemma {:induction false} CountAtMostBelowMonotone(s: seq<real>, v: real, w: real)
    requires v < w
    ensures CountAtMost(s, v) <= CountBelow(s, w)
  {
    if s != [] {
      CountAtMostBelowMonotone(s[1..], v, w);
    }
  }

  /** The k-th order statistic is unique. */
  lemma OrderStatisticUnique(s: seq<real>, k: nat, v: real, w: real)
    requires IsOrderStatistic(s, k, v) && IsOrderStatistic(s, k, w)
    ensures v == w
  {
    if v < w {
      CountAtMostBelowMonotone(s, v, w);
    } else if w < v {
      CountAtMostBelowMonotone(s, w, v);
    }
  }

  /** An order statistic lies between the minimum and the maximum. */
  lemma OrderStatisticBounds(s: seq<real>, k: nat, v: real)
    requires IsOrderStatistic(s, k, v)
    ensures Min(s) <= v <= Max(s)
  {
  }

  // ---------------------------------------------------------------------
  // Order independence

  lemma SortedHeadLeast(s: seq<real>, v: real)
    requires Sorted(s) && v in multiset(s)
    ensures s != [] && s[0] <= v
  {
    var k :| 0 <= k < |s| && s[k] == v;
  }

  lemma SortedTail(s: seq<real>)
    requires Sorted(s) && s != []
    ensures Sorted(s[1..])
  {
    forall i, j | 0 <= i < j < |s| - 1
      ensures s[1..][i] <= s[1..][j]
    {
      assert s[1..][i] == s[i + 1] && s[1..][j] == s[j + 1];
    }
  }

  lemma TailMultiset(s: seq<real>)
    requires s != []
    ensures multiset(s[1..]) == multiset(s) - multiset{s[0]}
  {
    assert s == [s[0]] + s[1..];
  }

  /** Two ascending sequences holding the same multiset are equal. */
  lemma {:induction false} SortedUnique(x: seq<real>, y: seq<real>)
    requires Sorted(x) && Sorted(y)
    requires multiset(x) == multiset(y)
    ensures x == y
    decreases |x|
  {
    if x == [] {
      assert |y| == |multiset(y)| == 0;
    } else {
      assert x[0] in multiset(x);
      SortedHeadLeast(y, x[0]);
      assert y[0] in multiset(y);
      SortedHeadLeast(x, y[0]);
      assert x[0] == y[0];
      SortedTail(x);
      SortedTail(y);
      TailMultiset(x);
      TailMultiset(y);
      SortedUnique(x[1..], y[1..]);
      assert x == [x[0]] + x[1..];
      assert y == [y[0]] + y[1..];
    }
  }

  /** Sorting gives the same sequence for any arrival order of the samples. */
  lemma SortPermutationInvariant(a: seq<real>, b: seq<real>)
    requires multiset(a) == multiset(b)
    ensures Sort(a) == Sort(b)
  {
    SortedUnique(Sort(a), Sort(b));
  }

  lemma {:induction false} SumInsert(x: real, s: seq<real>)
    requires Sorted(s)
    ensures Sum(Insert(x, s)) == x + Sum(s)
  {
    if s != [] && x > s[0] {
      SumInsert(x, s[1..]);
      assert ([s[0]] + Insert(x, s[1..]))[1..] == Insert(x, s[1..]);
    }
  }

  lemma {:induction false} SumSort(s: seq<real>)
    ensures Sum(Sort(s)) == Sum(s)
  {
    if s != [] {
      SumSort(s[1..]);
      SumInsert(s[0], Sort(s[1..]));
    }
  }

  lemma ExtremesPermutationInvariant(a: seq<real>, b: seq<real>)
    requires a != [] && b != [] && multiset(a) == multiset(b)
    ensures Min(a) == Min(b) && Max(a) == Max(b)
  {
    assert Max(a) in multiset(b) && Max(b) in multiset(a);
    assert Min(a) in multiset(b) && Min(b) in multiset(a);
    assert Max(a) in b && Max(b) in a && Min(a) in b && Min(b) in a;
  }

  lemma SumPermutationInvariant(a: seq<real>, b: seq<real>)
    requires multiset(a) == multiset(b)
    ensures Sum(a) == Sum(b)
  {
    SortPermutationInvariant(a, b);
    SumSort(a);
    SumSort(b);
  }

  lemma MedianPermutationInvariant(a: seq<real>, b: seq<real>)
    requires a != [] && b != [] && multiset(a) == multiset(b)
    ensures Median(a) == Median(b)
  {
    SortPermutationInvariant(a, b);
  }

  /** The sum, the mean, the median, the minimum and the maximum do not
      depend on the order in which the samples arrived. */
  lemma StatisticsPermutationInvariant(a: seq<real>, b: seq<real>)
    requires a != [] && multiset(a) == multiset(b)
    ensures b != []
    ensures Sum(a) == Sum(b) && Mean(a) == Mean(b)
    ensures Median(a) == Median(b)
    ensures Min(a) == Min(b) && Max(a) == Max(b)
  {
    assert |a| == |multiset(a)| == |multiset(b)| == |b|;
    SumPermutationInvariant(a, b);
    MedianPermutationInvariant(a, b);
    ExtremesPermutationInvariant(a, b);
  }

  // ---------------------------------------------------------------------
  // Bounds of the mean and the median

  /** x added to itself n times. */
  function Times(n: nat, x: real): real
  {
    if n == 0 then 0.0 else x + Times(n - 1, x)
  }

  lemma {:induction false} TimesIsProduct(n: nat, x: real)
    ensures Times(n, x) == (n as real) * x
  {
    if n > 0 {
      TimesIsProduct(n - 1, x);
    }
  }

  lemma {:induction false} SumBounds(s: seq<real>, lo: real, hi: real)
    requires forall x :: x in s ==> lo <= x <= hi
    ensures Times(|s|, lo) <= Sum(s) <= Times(|s|, hi)
  {
    if s != [] {
      assert forall x :: x in s[1..] ==> x in s;
      SumBounds(s[1..], lo, hi);
      assert s[0] in s;
    }
  }

  /** The mean lies between the smallest and the largest sample. */
  lemma MeanBetween(s: seq<real>)
    requires s != []
    ensures Min(s) <= Mean(s) <= Max(s)
  {
    var n, lo, hi := |s|, Min(s), Max(s);
    SumBounds(s, lo, hi);
    TimesIsProduct(n, lo);
    TimesIsProduct(n, hi);
    assert (n as real) * lo <= Sum(s) <= (n as real) * hi;
    DivBounds(Sum(s), n as real, lo, hi);
  }

  lemma DivBounds(a: real, n: real, lo: real, hi: real)
    requires n > 0.0 && n * lo <= a <= n * hi
    ensures lo <= a / n <= hi
  {
  }

  lemma SortedElementBetween(s: seq<real>, k: nat)
    requires k < |s|
    ensures Min(s) <= Sort(s)[k] <= Max(s)
  {
    var v := Sort(s)[k];
    assert v in multiset(Sort(s));
    assert v in s;
  }

  lemma MiddleBetween(t: seq<real>, lo: real, hi: real)
    requires t != []
    requires forall k :: 0 <= k < |t| ==> lo <= t[k] <= hi
    ensures lo <= Middle(t) <= hi
  {
    var n := |t|;
    assert lo <= t[n / 2] <= hi;
    if n % 2 == 0 {
      assert lo <= t[n / 2 - 1] <= hi;
    }
  }

  /** The median lies between the smallest and the largest sample. */
  lemma MedianBetween(s: seq<real>)
    requires s != []
    ensures Min(s) <= Median(s) <= Max(s)
  {
    var t := Sort(s);
    forall k | 0 <= k < |t|
      ensures Min(s) <= t[k] <= Max(s)
    {
      SortedElementBetween(s, k);
    }
    MiddleBetween(t, Min(s), Max(s));
  }
}
