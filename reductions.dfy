/** The pandas reductions the analysis code applies to a column: the numbers a column
    holds, their count, sum, mean, minimum, maximum, median and linear-interpolation
    quantile, and `describe()`. Numbers are exact reals and quantile levels exact
    fractions `k / d`; the standard deviation, which needs a square root, is a
    parameter. */
module Reductions {
  import opened Common
  import opened Frames

  /** The number a cell holds for a numeric reduction: booleans count as 1 and 0, null
      and text hold none. */
  function NumberOf(c: Cell): Option<real>
  {
    match c
    case Num(x) => Some(x)
    case Flag(b) => Some(if b then 1.0 else 0.0)
    case _ => None
  }

  /** The numbers of a column, in row order (nulls are skipped). */
  function Numbers(cells: seq<Cell>): (xs: seq<real>)
    ensures |xs| <= |cells|
    ensures forall x :: x in xs <==> exists c :: c in cells && NumberOf(c) == Some(x)
  {
    if cells == [] then []
    else
      var rest := Numbers(cells[1..]);
      assert forall c :: c in cells <==> c == cells[0] || c in cells[1..];
      (if NumberOf(cells[0]).Some? then [NumberOf(cells[0]).value] else []) + rest
  }

  /** Each number is at most the next one. */
  predicate Sorted(s: seq<real>)
  {
    |s| <= 1 || (s[0] <= s[1] && Sorted(s[1..]))
  }

  /** `x` placed before the first element not smaller than it. */
  function Insert(x: real, s: seq<real>): seq<real>
  {
    if s == [] || x <= s[0] then [x] + s else [s[0]] + Insert(x, s[1..])
  }

  /** The numbers in ascending order. */
  function Sort(s: seq<real>): seq<real>
  {
    if s == [] then [] else Insert(s[0], Sort(s[1..]))
  }

  lemma {:induction false} InsertCount(x: real, s: seq<real>)
    ensures multiset(Insert(x, s)) == multiset(s) + multiset{x}
    ensures |Insert(x, s)| == |s| + 1
    ensures Insert(x, s)[0] == x || (s != [] && Insert(x, s)[0] == s[0])
  {
    if s != [] && x > s[0] {
      InsertCount(x, s[1..]);
      assert s == [s[0]] + s[1..];
    }
  }

  lemma {:induction false} InsertSorted(x: real, s: seq<real>)
    requires Sorted(s)
    ensures Sorted(Insert(x, s))
  {
    if s != [] && x > s[0] {
      InsertSorted(x, s[1..]);
      InsertCount(x, s[1..]);
      var t := Insert(x, s[1..]);
      assert Insert(x, s) == [s[0]] + t;
      assert ([s[0]] + t)[1..] == t;
    }
  }

  /** Sorting orders the numbers and keeps each of them as often as it occurs. */
  lemma {:induction false} SortSpec(s: seq<real>)
    ensures Sorted(Sort(s))
    ensures multiset(Sort(s)) == multiset(s)
    ensures |Sort(s)| == |s|
  {
    if s != [] {
      SortSpec(s[1..]);
      InsertSorted(s[0], Sort(s[1..]));
      InsertCount(s[0], Sort(s[1..]));
      assert s == [s[0]] + s[1..];
    }
  }

  lemma {:induction false} SortedStep(s: seq<real>, i: int)
    requires Sorted(s) && 0 <= i < |s| - 1
    ensures s[i] <= s[i + 1]
  {
    if i > 0 {
      SortedStep(s[1..], i - 1);
    }
  }

  lemma {:induction false} SortedFirst(s: seq<real>)
    requires Sorted(s) && s != []
    ensures forall x :: x in s ==> s[0] <= x
  {
    if |s| > 1 {
      SortedFirst(s[1..]);
      assert forall x :: x in s ==> x == s[0] || x in s[1..];
    }
  }

  lemma {:induction false} SortedLast(s: seq<real>)
    requires Sorted(s) && s != []
    ensures forall x :: x in s ==> x <= s[|s| - 1]
  {
    if |s| > 1 {
      SortedLast(s[1..]);
      assert s[1..][|s| - 2] == s[|s| - 1] && s[1] in s[1..];
      assert forall x :: x in s ==> x == s[0] || x in s[1..];
    }
  }

  function Sum(xs: seq<real>): real
  {
    if xs == [] then 0.0 else xs[0] + Sum(xs[1..])
  }

  function MinOf(xs: seq<real>): (m: real)
    requires xs != []
    ensures m in xs && forall x :: x in xs ==> m <= x
  {
    if |xs| == 1 then xs[0]
    else
      var rest := MinOf(xs[1..]);
      assert forall x :: x in xs ==> x == xs[0] || x in xs[1..];
      if xs[0] <= rest then xs[0] else rest
  }

  function MaxOf(xs: seq<real>): (m: real)
    requires xs != []
    ensures m in xs && forall x :: x in xs ==> x <= m
  {
    if |xs| == 1 then xs[0]
    else
      var rest := MaxOf(xs[1..]);
      assert forall x :: x in xs ==> x == xs[0] || x in xs[1..];
      if xs[0] >= rest then xs[0] else rest
  }

  /** A sum of values within bounds lies within the bounds times the count. */
  lemma {:induction false} SumBounds(xs: seq<real>, lo: real, hi: real)
    requires forall x :: x in xs ==> lo <= x <= hi
    ensures |xs| as real * lo <= Sum(xs) <= |xs| as real * hi
  {
    if xs != [] {
      assert xs[0] in xs;
      assert forall x :: x in xs[1..] ==> x in xs;
      SumBounds(xs[1..], lo, hi);
      assert |xs| as real * lo == lo + |xs[1..]| as real * lo;
      assert |xs| as real * hi == hi + |xs[1..]| as real * hi;
    }
  }

  /** The mean lies between the minimum and the maximum. */
  lemma MeanBounds(xs: seq<real>)
    requires xs != []
    ensures MinOf(xs) <= Sum(xs) / |xs| as real <= MaxOf(xs)
  {
    MeanWithin(xs, MinOf(xs), MaxOf(xs));
  }

  lemma MeanWithin(xs: seq<real>, lo: real, hi: real)
    requires xs != [] && forall x :: x in xs ==> lo <= x <= hi
    ensures lo <= Sum(xs) / |xs| as real <= hi
  {
    SumBounds(xs, lo, hi);
    DivideBounds(Sum(xs), |xs| as real, lo, hi);
  }

  lemma DivideBounds(t: real, n: real, lo: real, hi: real)
    requires 0.0 < n && n * lo <= t <= n * hi
    ensures lo <= t / n <= hi
  {
    assert t / n * n == t;
  }

  lemma RankBound(k: int, d: int, m: int)
    requires 0 <= k <= d && 0 < d && 0 <= m
    ensures 0 <= k * m / d <= m
  {
    assert k * m <= d * m;
    assert d * m / d == m;
  }

  lemma RankWhole(d: int, m: int)
    requires 0 < d && 0 <= m
    ensures d * m / d == m && d * m % d == 0
  {
    var q, r := d * m / d, d * m % d;
    assert d * m == d * q + r && 0 <= r < d;
    assert d * (m - q) == r;
    SmallMultiple(d, m - q);
  }

  /** The only multiple of `d` in `[0, d)` is zero. */
  lemma SmallMultiple(d: int, x: int)
    requires 0 < d && 0 <= d * x < d
    ensures x == 0
  {
  }

  /** A rank `k / d * m` as its whole part and its remainder in `d`-ths. */
  function Position(k: int, d: int, m: int): (p: (int, int))
    requires 0 <= k <= d && 0 < d && 0 <= m
    ensures 0 <= p.0 <= m && 0 <= p.1 < d
    ensures k == 0 ==> p == (0, 0)
    ensures k == d ==> p == (m, 0)
  {
    RankBound(k, d, m);
    RankWhole(d, m);
    (k * m / d, k * m % d)
  }

  /** The sorted value at position `lo + rem / d`, interpolating linearly between the
      two neighbours of a fractional position. */
  function Interpolate(s: seq<real>, lo: int, rem: int, d: int): real
    requires 0 <= lo < |s| && 0 < d
  {
    if lo + 1 < |s| then s[lo] + (rem as real / d as real) * (s[lo + 1] - s[lo]) else s[lo]
  }

  /** numpy's default ("linear") quantile at level `k / d`: the value at position
      `k / d * (n - 1)` of the sorted numbers. */
  function QuantileOf(xs: seq<real>, k: int, d: int): real
    requires xs != [] && 0 <= k <= d && 0 < d
  {
    SortSpec(xs);
    var p := Position(k, d, |xs| - 1);
    Interpolate(Sort(xs), p.0, p.1, d)
  }

  /** pandas' median: the middle number, or the mean of the two middle numbers. */
  function MedianOf(xs: seq<real>): real
    requires xs != []
  {
    SortSpec(xs);
    var s := Sort(xs);
    var n := |s|;
    if n % 2 == 1 then s[n / 2] else (s[n / 2 - 1] + s[n / 2]) / 2.0
  }

  /** Every sorted number lies between the minimum and the maximum, which are the
      first and the last. */
  lemma SortEnds(xs: seq<real>)
    requires xs != []
    ensures |Sort(xs)| == |xs|
    ensures forall i :: 0 <= i < |xs| ==> MinOf(xs) <= Sort(xs)[i] <= MaxOf(xs)
    ensures Sort(xs)[0] == MinOf(xs) && Sort(xs)[|xs| - 1] == MaxOf(xs)
  {
    SortSpec(xs);
    var s := Sort(xs);
    SameElements(s, xs);
    SortedFirst(s);
    SortedLast(s);
    assert s[0] in s && s[|s| - 1] in s;
    forall i | 0 <= i < |s|
      ensures MinOf(xs) <= s[i] <= MaxOf(xs)
    {
      assert s[i] in s;
    }
  }

  /** Sequences with the same multiset hold the same elements. */
  lemma SameElements(s: seq<real>, t: seq<real>)
    requires multiset(s) == multiset(t)
    ensures forall x :: x in s <==> x in t
  {
    forall x
      ensures x in s <==> x in t
    {
      assert x in s <==> x in multiset(s);
      assert x in t <==> x in multiset(t);
    }
  }

  /** The median is the 0.5 quantile, so `describe()`'s `50%` and `median()` agree. */
  lemma MedianIsHalfQuantile(xs: seq<real>)
    requires xs != []
    ensures MedianOf(xs) == QuantileOf(xs, 1, 2)
  {
    SortSpec(xs);
    var n := |xs|;
    if n % 2 == 1 {
      assert (n - 1) / 2 == n / 2 && (n - 1) % 2 == 0;
    } else {
      assert (n - 1) / 2 == n / 2 - 1 && (n - 1) % 2 == 1;
    }
  }

  /** A fraction `r / d` with `0 <= r < d` of a non-negative gap is at most the gap. */
  lemma ScaleBound(r: int, d: int, g: real)
    requires 0 <= r < d && 0.0 <= g
    ensures 0.0 <= (r as real / d as real) * g <= g
  {
    var f := r as real / d as real;
    assert 0.0 <= f <= 1.0;
    assert f * g <= 1.0 * g;
  }

  /** An interpolated value lies between its two neighbours. */
  lemma InterpolateBetween(s: seq<real>, lo: int, rem: int, d: int)
    requires 0 <= lo < |s| && 0 <= rem < d
    requires lo + 1 < |s| ==> s[lo] <= s[lo + 1]
    ensures s[lo] <= Interpolate(s, lo, rem, d)
    ensures lo + 1 < |s| ==> Interpolate(s, lo, rem, d) <= s[lo + 1]
    ensures lo + 1 >= |s| || rem == 0 ==> Interpolate(s, lo, rem, d) == s[lo]
  {
    if lo + 1 < |s| {
      ScaleBound(rem, d, s[lo + 1] - s[lo]);
    }
  }

  /** Every quantile lies between the minimum and the maximum. */
  lemma QuantileBounds(xs: seq<real>, k: int, d: int)
    requires xs != [] && 0 <= k <= d && 0 < d
    ensures MinOf(xs) <= QuantileOf(xs, k, d) <= MaxOf(xs)
  {
    SortEnds(xs);
    var s := Sort(xs);
    var p := Position(k, d, |xs| - 1);
    if p.0 + 1 < |s| {
      SortSorted(xs);
      SortedStep(s, p.0);
    }
    InterpolateBetween(s, p.0, p.1, d);
  }

  lemma SortSorted(xs: seq<real>)
    ensures Sorted(Sort(xs))
  {
    SortSpec(xs);
  }

  /** The 0 and 1 quantiles are the minimum and the maximum. */
  lemma QuantileEnds(xs: seq<real>, d: int)
    requires xs != [] && 0 < d
    ensures QuantileOf(xs, 0, d) == MinOf(xs)
    ensures QuantileOf(xs, d, d) == MaxOf(xs)
  {
    SortEnds(xs);
    var s := Sort(xs);
    InterpolateBetween(s, 0, 0, d);
    InterpolateBetween(s, |xs| - 1, 0, d);
  }

  /** When every number is `v`, every quantile and the median are `v`. */
  lemma QuantileConstant(xs: seq<real>, k: int, d: int, v: real)
    requires xs != [] && 0 <= k <= d && 0 < d
    requires forall x :: x in xs ==> x == v
    ensures QuantileOf(xs, k, d) == v
    ensures MedianOf(xs) == v
  {
    QuantileBounds(xs, k, d);
    MedianIsHalfQuantile(xs);
    QuantileBounds(xs, 1, 2);
  }

  /** `mean()`: null when the column holds no number. */
  function ColumnMean(cells: seq<Cell>): Option<real>
  {
    var xs := Numbers(cells);
    if xs == [] then None else Some(Sum(xs) / |xs| as real)
  }

  function ColumnMin(cells: seq<Cell>): Option<real>
  {
    var xs := Numbers(cells);
    if xs == [] then None else Some(MinOf(xs))
  }

  function ColumnMax(cells: seq<Cell>): Option<real>
  {
    var xs := Numbers(cells);
    if xs == [] then None else Some(MaxOf(xs))
  }

  /** `median()`: null when the column holds no number. */
  function ColumnMedian(cells: seq<Cell>): Option<real>
  {
    var xs := Numbers(cells);
    if xs == [] then None else Some(MedianOf(xs))
  }

  /** `quantile(k / d)`: null when the column holds no number. */
  function ColumnQuantile(cells: seq<Cell>, k: int, d: int): Option<real>
    requires 0 <= k <= d && 0 < d
  {
    var xs := Numbers(cells);
    if xs == [] then None else Some(QuantileOf(xs, k, d))
  }

  /** The statistics `describe(percentiles=[0.25, 0.5, 0.75])` reports, and the
      `median` entry the summary adds. */
  datatype Stat = Count | Mean | Std | Min | P25 | P50 | P75 | Max | Median

  /** The key pandas gives each statistic. */
  function Label(st: Stat): string
  {
    match st
    case Count => "count" case Mean => "mean" case Std => "std" case Min => "min"
    case P25 => "25%" case P50 => "50%" case P75 => "75%" case Max => "max"
    case Median => "median"
  }

  const DescribeStats: set<Stat> := {Count, Mean, Std, Min, P25, P50, P75, Max}

  /** One statistic of `describe()` for a numeric column, null standing for `NaN`. */
  function StatValue(cells: seq<Cell>, std: seq<real> -> Option<real>, st: Stat): Option<real>
  {
    match st
    case Count => Some(|Numbers(cells)| as real)
    case Mean => ColumnMean(cells)
    case Std => std(Numbers(cells))
    case Min => ColumnMin(cells)
    case P25 => ColumnQuantile(cells, 1, 4)
    case P50 => ColumnQuantile(cells, 1, 2)
    case P75 => ColumnQuantile(cells, 3, 4)
    case Max => ColumnMax(cells)
    case Median => ColumnMedian(cells)
  }

  /** `describe()` of one numeric column. */
  function Describe(cells: seq<Cell>, std: seq<real> -> Option<real>): map<Stat, Option<real>>
  {
    map st | st in DescribeStats :: StatValue(cells, std, st)
  }

  /** `describe()` reports the eight statistics, each its own value; its count is zero
      exactly when the column holds no number. */
  lemma DescribeKeys(cells: seq<Cell>, std: seq<real> -> Option<real>)
    ensures Describe(cells, std).Keys == DescribeStats
    ensures forall st :: st in DescribeStats ==> Describe(cells, std)[st] == StatValue(cells, std, st)
    ensures Numbers(cells) == [] <==> StatValue(cells, std, Count) == Some(0.0)
  {
  }

  /** `describe()`'s `50%` is the median. */
  lemma DescribeMedian(cells: seq<Cell>, std: seq<real> -> Option<real>)
    ensures StatValue(cells, std, P50) == ColumnMedian(cells)
  {
    var xs := Numbers(cells);
    if xs != [] {
      MedianIsHalfQuantile(xs);
    }
  }

  /** The quartiles `describe()` reports lie between its `min` and its `max`. */
  lemma DescribeQuartiles(cells: seq<Cell>, std: seq<real> -> Option<real>)
    requires Numbers(cells) != []
    ensures ColumnMin(cells).Some? && ColumnMax(cells).Some?
    ensures ColumnQuantile(cells, 1, 4).Some? && ColumnQuantile(cells, 3, 4).Some?
    ensures ColumnMin(cells).value <= ColumnQuantile(cells, 1, 4).value <= ColumnMax(cells).value
    ensures ColumnMin(cells).value <= ColumnQuantile(cells, 3, 4).value <= ColumnMax(cells).value
  {
    var xs := Numbers(cells);
    QuantileBounds(xs, 1, 4);
    QuantileBounds(xs, 3, 4);
  }
}
