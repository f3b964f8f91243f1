/**
 * The summary statistics and the histogram that the Monte Carlo simulation of the
 * MPRIV calculator draws from its simulated fines
 * (react-app/src/components/MPRIVCalculator.tsx, `runMonteCarloSimulation`, after
 * the sampling loop): a sorted copy, the average, the extremes, the upper median
 * and a 20-bin equal-width histogram whose last bin is closed on both ends.
 */
module Statistics {
  import opened Arith

  // ---------------------------------------------------------------------------
  // Sorting (`[...fines].sort((a, b) => a - b)`)
  // ---------------------------------------------------------------------------

  predicate SortedAscending(s: seq<real>) {
    forall i, j :: 0 <= i < j < |s| ==> s[i] <= s[j]
  }

  /** `x` placed into a sorted sequence before the first element not smaller than it. */
  function Insert(x: real, s: seq<real>): (r: seq<real>)
    requires SortedAscending(s)
    ensures SortedAscending(r)
    ensures multiset(r) == multiset(s) + multiset{x}
  {
    if |s| == 0 then [x]
    else if x <= s[0] then [x] + s
    else
      var rest := Insert(x, s[1..]);
      assert s == [s[0]] + s[1..];
      assert forall k :: 0 <= k < |rest| ==> s[0] <= rest[k] by {
        forall k | 0 <= k < |rest|
          ensures s[0] <= rest[k]
        {
          var y := rest[k];
          assert y in multiset(rest);
          if y != x {
            assert y in multiset(s[1..]);
            var j :| 0 <= j < |s| - 1 && s[1..][j] == y;
            assert s[j + 1] == y;
          }
        }
      }
      [s[0]] + rest
  }

  /** An ascending permutation of `s`. */
  function SortAscending(s: seq<real>): (r: seq<real>)
    ensures SortedAscending(r)
    ensures multiset(r) == multiset(s)
    ensures |r| == |s|
  {
    if |s| == 0 then []
    else
      assert s == [s[0]] + s[1..];
      Insert(s[0], SortAscending(s[1..]))
  }

  // ---------------------------------------------------------------------------
  // Extremes and average (`Math.min(...fines)`, `Math.max(...fines)`, `reduce`)
  // ---------------------------------------------------------------------------

  /** The smallest element: one of the elements, and no larger than any of them. */
  function SeqMin(s: seq<real>): (m: real)
    requires |s| > 0
    ensures m in s
    ensures forall x :: x in s ==> m <= x
  {
    if |s| == 1 then s[0]
    else
      assert s == [s[0]] + s[1..];
      MinReal(s[0], SeqMin(s[1..]))
  }

  /** The largest element: one of the elements, and no smaller than any of them. */
  function SeqMax(s: seq<real>): (m: real)
    requires |s| > 0
    ensures m in s
    ensures forall x :: x in s ==> x <= m
  {
    if |s| == 1 then s[0]
    else
      assert s == [s[0]] + s[1..];
      MaxReal(s[0], SeqMax(s[1..]))
  }

  /** The left-to-right sum, starting from 0. */
  function Sum(s: seq<real>): real {
    if |s| == 0 then 0.0 else Sum(s[..|s| - 1]) + s[|s| - 1]
  }

  lemma MulSucc(n: nat, x: real)
    ensures ((n + 1) as real) * x == (n as real) * x + x
  {
  }

  /** A sum of elements in [lo, hi] lies between lo and hi times their number. */
  lemma {:induction false} SumWithin(s: seq<real>, lo: real, hi: real)
    requires forall x :: x in s ==> lo <= x <= hi
    ensures lo * (|s| as real) <= Sum(s) <= hi * (|s| as real)
  {
    if |s| > 0 {
      var init := s[..|s| - 1];
      assert forall x :: x in init ==> x in s;
      assert s[|s| - 1] in s;
      SumWithin(init, lo, hi);
      MulSucc(|init|, lo);
      MulSucc(|init|, hi);
    }
  }

  /** The average of a non-empty sequence of elements in [lo, hi] lies in [lo, hi]. */
  lemma AverageWithin(s: seq<real>, lo: real, hi: real)
    requires |s| > 0 && forall x :: x in s ==> lo <= x <= hi
    ensures lo <= Sum(s) / (|s| as real) <= hi
  {
    SumWithin(s, lo, hi);
    DivideWithin(Sum(s), |s| as real, lo, hi);
  }

  // ---------------------------------------------------------------------------
  // The summary
  // ---------------------------------------------------------------------------

  datatype SimStats = SimStats(min: real, avg: real, median: real, max: real)

  /**
   * Minimum, average, upper median (`sorted[floor(n / 2)]`) and maximum of the
   * fines. The extremes and the median are fines, the extremes bound every fine,
   * and so min <= median <= max and min <= avg <= max.
   */
  function Summary(fines: seq<real>): (st: SimStats)
    requires |fines| > 0
    ensures st.min in fines && st.median in fines && st.max in fines
    ensures forall f :: f in fines ==> st.min <= f <= st.max
    ensures st.min <= st.median <= st.max && st.min <= st.avg <= st.max
  {
    var sorted := SortAscending(fines);
    assert sorted[|fines| / 2] in multiset(sorted);
    AverageWithin(fines, SeqMin(fines), SeqMax(fines));
    SimStats(SeqMin(fines), Sum(fines) / (|fines| as real), sorted[|fines| / 2], SeqMax(fines))
  }

  /** With every fine non-negative, so is every statistic. */
  lemma SummaryNonNegative(fines: seq<real>)
    requires |fines| > 0 && forall f :: f in fines ==> f >= 0.0
    ensures var st := Summary(fines);
            st.min >= 0.0 && st.avg >= 0.0 && st.median >= 0.0 && st.max >= 0.0
  {
  }

  // ---------------------------------------------------------------------------
  // The histogram
  // ---------------------------------------------------------------------------

  const Bins: nat := 20

  /** The width of each of the equal bins between `lo` and `hi`. */
  function BinSize(lo: real, hi: real): real {
    (hi - lo) / (Bins as real)
  }

  /**
   * Sample `f` falls into bin `i` of the bins of width `size` starting at `lo`:
   * [start, start + size), the last bin closed at its upper end.
   */
  predicate InBin(f: real, lo: real, size: real, i: nat) {
    var binStart := lo + (i as real) * size;
    var binEnd := binStart + size;
    f >= binStart && (if i == Bins - 1 then f <= binEnd else f < binEnd)
  }

  /** The number of fines in bin `i` (`fines.filter(...).length`). */
  function BinCount(fines: seq<real>, lo: real, size: real, i: nat): (c: nat)
    ensures c <= |fines|
  {
    if |fines| == 0 then 0
    else BinCount(fines[..|fines| - 1], lo, size, i) + (if InBin(fines[|fines| - 1], lo, size, i) then 1 else 0)
  }

  /** The counts of the 20 equal-width bins between `lo` and `hi`; no bin holds more than all the fines. */
  function Histogram(fines: seq<real>, lo: real, hi: real): (h: seq<nat>)
    ensures |h| == Bins
    ensures forall i :: 0 <= i < Bins ==> h[i] <= |fines|
  {
    seq(Bins, i requires 0 <= i < Bins => BinCount(fines, lo, BinSize(lo, hi), i))
  }

  function SumNat(s: seq<nat>): nat {
    if |s| == 0 then 0 else SumNat(s[..|s| - 1]) + s[|s| - 1]
  }

  /** The counts of bins 0 .. k-1 of the fines. */
  function BinTotal(fines: seq<real>, lo: real, size: real, k: nat): nat {
    if k == 0 then 0 else BinTotal(fines, lo, size, k - 1) + BinCount(fines, lo, size, k - 1)
  }

  /** How many of bins 0 .. k-1 contain `f`. */
  function BinHits(f: real, lo: real, size: real, k: nat): nat {
    if k == 0 then 0 else BinHits(f, lo, size, k - 1) + (if InBin(f, lo, size, k - 1) then 1 else 0)
  }

  /** Bins are disjoint: no sample lies in two different bins. */
  lemma BinsDisjoint(f: real, lo: real, size: real, i: nat, j: nat)
    requires size >= 0.0 && i < j < Bins
    ensures !(InBin(f, lo, size, i) && InBin(f, lo, size, j))
  {
    var iEnd := lo + (i as real) * size + size;
    var jStart := lo + (j as real) * size;
    MulSucc(i, size);
    ScaleMonotone((i + 1) as real, j as real, size);
    assert iEnd <= jStart;
  }

  /** A sample between bin i's start and the top of the last bin lies in bin i or a later one. */
  lemma FindBin(f: real, lo: real, size: real, i: nat) returns (b: nat)
    requires size >= 0.0 && i < Bins
    requires lo + (i as real) * size <= f <= lo + (Bins as real) * size
    ensures i <= b < Bins && InBin(f, lo, size, b)
    decreases Bins - i
  {
    MulSucc(i, size);
    if i == Bins - 1 || f < lo + (i as real) * size + size {
      b := i;
    } else {
      b := FindBin(f, lo, size, i + 1);
    }
  }

  /** A sample in bin b is counted once among the bins below k when b < k, and not at all otherwise. */
  lemma {:induction false} HitsOfOneBin(f: real, lo: real, size: real, b: nat, k: nat)
    requires size >= 0.0 && b < Bins && InBin(f, lo, size, b) && k <= Bins
    ensures BinHits(f, lo, size, k) == if b < k then 1 else 0
  {
    if k > 0 {
      HitsOfOneBin(f, lo, size, b, k - 1);
      if k - 1 < b {
        BinsDisjoint(f, lo, size, k - 1, b);
      } else if b < k - 1 {
        BinsDisjoint(f, lo, size, b, k - 1);
      }
    }
  }

  /** In exact arithmetic a sample between `lo` and the top of the last bin lies in exactly one bin. */
  lemma ExactlyOneBin(f: real, lo: real, size: real)
    requires size >= 0.0 && lo <= f <= lo + (Bins as real) * size
    ensures BinHits(f, lo, size, Bins) == 1
  {
    var b := FindBin(f, lo, size, 0);
    HitsOfOneBin(f, lo, size, b, Bins);
  }

  /** Appending a sample adds its hits to the total of the first k bins. */
  lemma {:induction false} BinTotalSnoc(fines: seq<real>, f: real, lo: real, size: real, k: nat)
    ensures BinTotal(fines + [f], lo, size, k) == BinTotal(fines, lo, size, k) + BinHits(f, lo, size, k)
  {
    if k > 0 {
      BinTotalSnoc(fines, f, lo, size, k - 1);
      assert (fines + [f])[..|fines|] == fines;
    }
  }

  /** Every sample in range is counted exactly once across the bins. */
  lemma {:induction false} BinTotalCovers(fines: seq<real>, lo: real, size: real)
    requires size >= 0.0 && forall f :: f in fines ==> lo <= f <= lo + (Bins as real) * size
    ensures BinTotal(fines, lo, size, Bins) == |fines|
  {
    if |fines| > 0 {
      var init := fines[..|fines| - 1];
      var last := fines[|fines| - 1];
      assert fines == init + [last];
      assert forall f :: f in init ==> f in fines;
      assert last in fines;
      BinTotalCovers(init, lo, size);
      BinTotalSnoc(init, last, lo, size, Bins);
      ExactlyOneBin(last, lo, size);
    } else {
      BinTotalEmpty(fines, lo, size, Bins);
    }
  }

  /** No samples, no counts. */
  lemma {:induction false} BinTotalEmpty(fines: seq<real>, lo: real, size: real, k: nat)
    requires |fines| == 0
    ensures BinTotal(fines, lo, size, k) == 0
  {
    if k > 0 {
      BinTotalEmpty(fines, lo, size, k - 1);
    }
  }

  /** The first k counts of the histogram add up to the total of its first k bins. */
  lemma {:induction false} HistogramPrefixSum(fines: seq<real>, lo: real, hi: real, k: nat)
    requires k <= Bins
    ensures SumNat(Histogram(fines, lo, hi)[..k]) == BinTotal(fines, lo, BinSize(lo, hi), k)
  {
    if k > 0 {
      var h := Histogram(fines, lo, hi);
      assert h[..k][..k - 1] == h[..k - 1];
      HistogramPrefixSum(fines, lo, hi, k - 1);
    }
  }

  /**
   * With every fine between `lo` and `hi`, each falls into exactly one of the 20
   * bins, so the counts add up to the number of fines.
   */
  lemma HistogramCoversAll(fines: seq<real>, lo: real, hi: real)
    requires lo <= hi && forall f :: f in fines ==> lo <= f <= hi
    ensures SumNat(Histogram(fines, lo, hi)) == |fines|
  {
    var size := BinSize(lo, hi);
    assert lo + (Bins as real) * size == hi;
    BinTotalCovers(fines, lo, size);
    HistogramPrefixSum(fines, lo, hi, Bins);
    assert Histogram(fines, lo, hi)[..Bins] == Histogram(fines, lo, hi);
  }

  /** With zero-width bins every sample equal to `lo` is in the last bin and no other. */
  lemma {:induction false} DegenerateBinCount(fines: seq<real>, lo: real, i: nat)
    requires i < Bins && forall f :: f in fines ==> f == lo
    ensures BinCount(fines, lo, 0.0, i) == if i == Bins - 1 then |fines| else 0
  {
    if |fines| > 0 {
      var init := fines[..|fines| - 1];
      assert forall f :: f in init ==> f in fines;
      var last := fines[|fines| - 1];
      assert last in fines;
      assert lo + (i as real) * 0.0 == lo;
      assert InBin(last, lo, 0.0, i) <==> i == Bins - 1;
      DegenerateBinCount(init, lo, i);
    }
  }

  /** When all fines are equal, every one of them lands in the last bin. */
  lemma HistogramDegenerate(fines: seq<real>, lo: real)
    requires forall f :: f in fines ==> f == lo
    ensures Histogram(fines, lo, lo) == seq(Bins, i requires 0 <= i < Bins => if i == Bins - 1 then |fines| else 0)
  {
    assert BinSize(lo, lo) == 0.0;
    forall i | 0 <= i < Bins
      ensures Histogram(fines, lo, lo)[i] == if i == Bins - 1 then |fines| else 0
    {
      DegenerateBinCount(fines, lo, i);
    }
  }
}
