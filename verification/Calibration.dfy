/** The calibration bins of benchmark/metrics.py over exact reals. The rounding of the edges is any
    monotone function that leaves 0 and 1 where they are. */
module Calibration {
  import opened Wrappers

  datatype Pair = Pair(score: real, positive: bool)

  datatype Bin = Bin(lo: real, hi: real, n: nat, nPositive: nat, mean: Option<real>)

  ghost predicate Rounds(round: real -> real) {
    round(0.0) == 0.0 && round(1.0) == 1.0 && forall x, y :: x <= y ==> round(x) <= round(y)
  }

  // The last edge is added when the walk comes this close to 1.
  const NEARLY_ONE: real := 1.0 - 0.000000000001

  // ---------------------------------------------------------------- the edges

  ghost predicate Rising(edges: seq<real>) {
    forall i, j :: 0 <= i < j < |edges| ==> edges[i] <= edges[j]
  }

  ghost predicate Spans(edges: seq<real>) {
    |edges| >= 2 && edges[0] == 0.0 && edges[|edges| - 1] == 1.0 && Rising(edges)
  }

  ghost predicate Distinguishes(round: real -> real) {
    forall x, y :: x < y ==> round(x) < round(y)
  }

  // One width further on, the walk is one whole width closer to its end.
  lemma OneWidthCloser(edge: real, width: real)
    requires width > 0.0
    ensures ((1.0 - (edge + width)) / width).Floor == ((1.0 - edge) / width).Floor - 1
  {
    var before, after := (1.0 - edge) / width, (1.0 - (edge + width)) / width;
    Distributes(before, after, width);
    SameFactor(before - after, 1.0, width);
  }

  lemma Distributes(a: real, b: real, c: real)
    ensures (a - b) * c == a * c - b * c
  {}

  lemma SameFactor(a: real, b: real, c: real)
    requires a * c == b * c && c > 0.0
    ensures a == b
  {
    Distributes(a, b, c);
  }

  ghost function Multiple(i: nat, width: real): (multiple: real) {
    i as real * width
  }

  lemma OneWidthMore(i: nat, width: real)
    ensures Multiple(0, width) == 0.0 && Multiple(i + 1, width) == Multiple(i, width) + width
  {}

  // The edges are the multiples of the width, as they are rounded, up to the last below nearly one.
  ghost predicate StepsBy(edges: seq<real>, width: real, round: real -> real) {
    && |edges| >= 2
    && (forall i :: 0 <= i < |edges| - 1 ==> edges[i] == round(Multiple(i, width)))
    && Multiple(|edges| - 2, width) < NEARLY_ONE <= Multiple(|edges| - 1, width)
  }

  lemma FurtherSteps(i: nat, j: nat, width: real)
    requires i < j && width > 0.0
    ensures Multiple(i, width) < Multiple(j, width)
  {
    assert j as real * width == i as real * width + (j - i) as real * width;
  }

  lemma StepsSpan(edges: seq<real>, width: real, round: real -> real)
    requires width > 0.0 && Rounds(round) && StepsBy(edges, width, round) && edges[|edges| - 1] == 1.0
    ensures Spans(edges)
    ensures Distinguishes(round) ==> forall i, j :: 0 <= i < j < |edges| ==> edges[i] < edges[j]
  {
    OneWidthMore(0, width);
    hide Multiple;
    forall i, j | 0 <= i < j < |edges|
      ensures edges[i] <= edges[j] && (Distinguishes(round) ==> edges[i] < edges[j])
    {
      FurtherSteps(i, j, width);
      if i < |edges| - 2 {
        FurtherSteps(i, |edges| - 2, width);
      }
      assert round(Multiple(i, width)) <= round(1.0);
      if j < |edges| - 1 {
        assert round(Multiple(i, width)) <= round(Multiple(j, width));
      }
    }
  }

  /** There is an edge before nearly 1 for every whole width that fits there, and no bin is wider than its width by more
      than a millionth of a millionth. */
  lemma EdgesFit(edges: seq<real>, width: real, round: real -> real, i: nat)
    requires width > 0.0 && StepsBy(edges, width, round)
    ensures i as real * width < 0.999999999999 <==> i < |edges| - 1
    ensures 1.0 - (|edges| - 2) as real * width <= width + 0.000000000001
  {
    var last := |edges| - 1;
    if i < last - 1 {
      FurtherSteps(i, last - 1, width);
    } else if i > last {
      FurtherSteps(last, i, width);
    }
    OneWidthMore(last - 1, width);
  }

  /** The edge walk ends for every positive width; its edges go by the width and rise from 0 to 1, strictly if
      rounding keeps different numbers apart. */
  method Edges(width: real, round: real -> real) returns (edges: seq<real>)
    requires width > 0.0 && Rounds(round)
    ensures Spans(edges) && StepsBy(edges, width, round)
    ensures Distinguishes(round) ==> forall i, j :: 0 <= i < j < |edges| ==> edges[i] < edges[j]
  {
    hide Multiple, Spans, Distinguishes;
    edges := [];
    var edge := 0.0;
    OneWidthMore(0, width);
    while edge < NEARLY_ONE
      invariant edge == Multiple(|edges|, width) && (edges == [] ==> edge == 0.0)
      invariant edges != [] ==> Multiple(|edges| - 1, width) < NEARLY_ONE
      invariant forall i :: 0 <= i < |edges| ==> edges[i] == round(Multiple(i, width))
      decreases ((1.0 - edge) / width).Floor + 1
    {
      OneWidthMore(|edges|, width);
      edges := edges + [round(edge)];
      OneWidthCloser(edge, width);
      edge := edge + width;
    }
    edges := edges + [1.0];
    StepsSpan(edges, width, round);
  }

  // ---------------------------------------------------------------- the bins

  // Half-open, except that the last bin keeps its upper edge.
  predicate InBin(edges: seq<real>, k: nat, score: real)
    requires k + 1 < |edges|
  {
    edges[k] <= score && if k == |edges| - 2 then score <= edges[k + 1] else score < edges[k + 1]
  }

  function CountIn(pairs: seq<Pair>, edges: seq<real>, k: nat): (n: nat)
    requires k + 1 < |edges|
  {
    if pairs == [] then 0
    else CountIn(pairs[..|pairs| - 1], edges, k) + (if InBin(edges, k, pairs[|pairs| - 1].score) then 1 else 0)
  }

  function PositivesIn(pairs: seq<Pair>, edges: seq<real>, k: nat): (n: nat)
    requires k + 1 < |edges|
  {
    if pairs == [] then 0
    else
      var last := pairs[|pairs| - 1];
      PositivesIn(pairs[..|pairs| - 1], edges, k) + (if InBin(edges, k, last.score) && last.positive then 1 else 0)
  }

  function SumIn(pairs: seq<Pair>, edges: seq<real>, k: nat): (sum: real)
    requires k + 1 < |edges|
  {
    if pairs == [] then 0.0
    else
      var last := pairs[|pairs| - 1];
      SumIn(pairs[..|pairs| - 1], edges, k) + (if InBin(edges, k, last.score) then last.score else 0.0)
  }

  function BinAt(pairs: seq<Pair>, edges: seq<real>, k: nat): (bin: Bin)
    requires k + 1 < |edges|
  {
    var n := CountIn(pairs, edges, k);
    Bin(edges[k], edges[k + 1], n, PositivesIn(pairs, edges, k),
        if n == 0 then None else Some(SumIn(pairs, edges, k) / n as real))
  }

  method FillBin(pairs: seq<Pair>, edges: seq<real>, k: nat) returns (bin: Bin)
    requires k + 1 < |edges|
    ensures bin == BinAt(pairs, edges, k)
  {
    var n, positives, sum := 0, 0, 0.0;
    for i := 0 to |pairs|
      invariant n == CountIn(pairs[..i], edges, k) && positives == PositivesIn(pairs[..i], edges, k)
      invariant sum == SumIn(pairs[..i], edges, k)
    {
      assert pairs[..i + 1][..i] == pairs[..i];
      if InBin(edges, k, pairs[i].score) {
        n, sum := n + 1, sum + pairs[i].score;
        if pairs[i].positive {
          positives := positives + 1;
        }
      }
    }
    assert pairs[..|pairs|] == pairs;
    bin := Bin(edges[k], edges[k + 1], n, positives, if n == 0 then None else Some(sum / n as real));
  }

  /** calibration_bins. */
  method CalibrationBins(pairs: seq<Pair>, width: real, threshold: real, round: real -> real)
    returns (bins: seq<Bin>, thresholdBin: Option<nat>, ghost edges: seq<real>)
    requires width > 0.0 && Rounds(round)
    ensures Spans(edges) && StepsBy(edges, width, round)
    ensures |bins| == |edges| - 1 && forall k :: 0 <= k < |bins| ==> bins[k] == BinAt(pairs, edges, k)
    ensures thresholdBin.Some? ==> thresholdBin.value < |bins| && InBin(edges, thresholdBin.value, threshold)
    ensures thresholdBin.Some? <==> 0.0 <= threshold <= 1.0
  {
    var marks := Edges(width, round);
    edges := marks;
    bins, thresholdBin := [], None;
    for k := 0 to |marks| - 1
      invariant |bins| == k && forall j :: 0 <= j < k ==> bins[j] == BinAt(pairs, marks, j)
      invariant thresholdBin.Some? ==> thresholdBin.value < k && InBin(marks, thresholdBin.value, threshold)
      invariant thresholdBin == None ==> forall j :: 0 <= j < k ==> !InBin(marks, j, threshold)
    {
      var bin := FillBin(pairs, marks, k);
      bins := bins + [bin];
      if thresholdBin == None && InBin(marks, k, threshold) {
        thresholdBin := Some(k);
      }
    }
    if 0.0 <= threshold <= 1.0 {
      var k := FindBin(marks, threshold);
    }
  }

  // ---------------------------------------------------------------- the bins partition the range

  lemma FindBin(edges: seq<real>, score: real) returns (k: nat)
    requires Spans(edges) && 0.0 <= score <= 1.0
    ensures k + 1 < |edges| && InBin(edges, k, score)
  {
    k := 0;
    while k + 2 < |edges| && score >= edges[k + 1]
      invariant k + 1 < |edges| && edges[k] <= score
    {
      k := k + 1;
    }
  }

  /** Every score between 0 and 1 lies in exactly one bin, and no other score in any. */
  lemma ExactlyOneBin(edges: seq<real>, score: real)
    requires Spans(edges)
    ensures (exists k :: 0 <= k < |edges| - 1 && InBin(edges, k, score)) <==> 0.0 <= score <= 1.0
    ensures forall j, k :: 0 <= j < k < |edges| - 1 ==> !(InBin(edges, j, score) && InBin(edges, k, score))
  {
    if 0.0 <= score <= 1.0 {
      var k := FindBin(edges, score);
    }
    forall j, k | 0 <= j < k < |edges| - 1 ensures !(InBin(edges, j, score) && InBin(edges, k, score)) {
      assert edges[j + 1] <= edges[k];
    }
  }

  // How many of the first m bins hold a score.
  function BinsHolding(edges: seq<real>, m: nat, score: real): (n: nat)
    requires m < |edges|
  {
    if m == 0 then 0 else BinsHolding(edges, m - 1, score) + (if InBin(edges, m - 1, score) then 1 else 0)
  }

  lemma {:induction false} OneBinHolds(edges: seq<real>, m: nat, score: real, k: nat)
    requires Spans(edges) && m < |edges| && k + 1 < |edges| && InBin(edges, k, score)
    ensures BinsHolding(edges, m, score) == if k < m then 1 else 0
  {
    if m > 0 {
      OneBinHolds(edges, m - 1, score, k);
      ExactlyOneBin(edges, score);
    }
  }

  lemma {:induction false} NoBinHolds(edges: seq<real>, m: nat, score: real)
    requires Spans(edges) && m < |edges| && !(0.0 <= score <= 1.0)
    ensures BinsHolding(edges, m, score) == 0
  {
    if m > 0 {
      NoBinHolds(edges, m - 1, score);
      ExactlyOneBin(edges, score);
    }
  }

  // The counts of the first m bins together.
  function TotalIn(pairs: seq<Pair>, edges: seq<real>, m: nat): (n: nat)
    requires m < |edges|
  {
    if m == 0 then 0 else TotalIn(pairs, edges, m - 1) + CountIn(pairs, edges, m - 1)
  }

  lemma {:induction false} OnePairMore(pairs: seq<Pair>, edges: seq<real>, m: nat)
    requires m < |edges| && pairs != []
    ensures TotalIn(pairs, edges, m) == TotalIn(pairs[..|pairs| - 1], edges, m)
            + BinsHolding(edges, m, pairs[|pairs| - 1].score)
  {
    if m > 0 {
      OnePairMore(pairs, edges, m - 1);
    }
  }

  lemma {:induction false} NoPairsNoCounts(edges: seq<real>, m: nat)
    requires m < |edges|
    ensures TotalIn([], edges, m) == 0
  {
    if m > 0 {
      NoPairsNoCounts(edges, m - 1);
    }
  }

  function InRange(pairs: seq<Pair>): (n: nat) {
    if pairs == [] then 0
    else InRange(pairs[..|pairs| - 1]) + (if 0.0 <= pairs[|pairs| - 1].score <= 1.0 then 1 else 0)
  }

  /** The bins' counts add up to the pairs whose score lies between 0 and 1. */
  lemma {:induction false} BinsShareThePairs(pairs: seq<Pair>, edges: seq<real>)
    requires Spans(edges)
    ensures TotalIn(pairs, edges, |edges| - 1) == InRange(pairs)
    decreases |pairs|
  {
    if pairs == [] {
      NoPairsNoCounts(edges, |edges| - 1);
    } else {
      var score := pairs[|pairs| - 1].score;
      BinsShareThePairs(pairs[..|pairs| - 1], edges);
      OnePairMore(pairs, edges, |edges| - 1);
      if 0.0 <= score <= 1.0 {
        var k := FindBin(edges, score);
        OneBinHolds(edges, |edges| - 1, score, k);
      } else {
        NoBinHolds(edges, |edges| - 1, score);
      }
    }
  }

  // n numbers between lo and hi can have this sum.
  ghost predicate SumFits(lo: real, hi: real, n: nat, sum: real) {
    lo * n as real <= sum <= hi * n as real
  }

  lemma OneScoreMore(lo: real, hi: real, n: nat, sum: real, score: real)
    ensures SumFits(lo, hi, 0, 0.0)
    ensures SumFits(lo, hi, n, sum) && lo <= score <= hi ==> SumFits(lo, hi, n + 1, sum + score)
  {
    assert lo * (n + 1) as real == lo * n as real + lo;
    assert hi * (n + 1) as real == hi * n as real + hi;
  }

  lemma {:induction false} SumBetween(pairs: seq<Pair>, edges: seq<real>, k: nat)
    requires k + 1 < |edges|
    ensures SumFits(edges[k], edges[k + 1], CountIn(pairs, edges, k), SumIn(pairs, edges, k))
    ensures PositivesIn(pairs, edges, k) <= CountIn(pairs, edges, k)
    decreases |pairs|
  {
    hide SumFits;
    if pairs == [] {
      OneScoreMore(edges[k], edges[k + 1], 0, 0.0, 0.0);
    } else {
      var front := pairs[..|pairs| - 1];
      SumBetween(front, edges, k);
      OneScoreMore(edges[k], edges[k + 1], CountIn(front, edges, k), SumIn(front, edges, k), pairs[|pairs| - 1].score);
    }
  }

  lemma MeanOf(lo: real, hi: real, sum: real, n: real)
    requires n > 0.0 && lo * n <= sum <= hi * n
    ensures lo <= sum / n <= hi
  {
    assert sum / n * n == sum;
    LessFactor(lo, sum / n, n);
    LessFactor(sum / n, hi, n);
  }

  lemma LessFactor(a: real, b: real, c: real)
    requires a * c <= b * c && c > 0.0
    ensures a <= b
  {
    if a > b {
      Distributes(a, b, c);
    }
  }

  /** The mean score of a bin lies between its edges. */
  lemma MeanBetween(pairs: seq<Pair>, edges: seq<real>, k: nat)
    requires k + 1 < |edges|
    ensures var bin := BinAt(pairs, edges, k);
            bin.nPositive <= bin.n && (bin.mean.Some? <==> bin.n > 0)
              && (bin.mean.Some? ==> bin.lo <= bin.mean.value <= bin.hi)
  {
    SumBetween(pairs, edges, k);
    var n, sum := CountIn(pairs, edges, k), SumIn(pairs, edges, k);
    if n > 0 {
      MeanOf(edges[k], edges[k + 1], sum, n as real);
    }
  }

  // ---------------------------------------------------------------- what a bin says

  // The pairs whose score a bin holds.
  function Inside(pairs: seq<Pair>, edges: seq<real>, k: nat): (at: set<nat>)
    requires k + 1 < |edges|
  {
    set i: nat | i < |pairs| && InBin(edges, k, pairs[i].score)
  }

  function PositiveOnes(pairs: seq<Pair>, edges: seq<real>, k: nat): (at: set<nat>)
    requires k + 1 < |edges|
  {
    set i | i in Inside(pairs, edges, k) && pairs[i].positive
  }

  lemma InsideOneMore(pairs: seq<Pair>, last: Pair, edges: seq<real>, k: nat)
    requires k + 1 < |edges|
    ensures |Inside(pairs + [last], edges, k)|
            == |Inside(pairs, edges, k)| + if InBin(edges, k, last.score) then 1 else 0
    ensures |PositiveOnes(pairs + [last], edges, k)|
            == |PositiveOnes(pairs, edges, k)| + if InBin(edges, k, last.score) && last.positive then 1 else 0
  {
    InsideThat(pairs, last, edges, k);
    assert |pairs| !in Inside(pairs, edges, k) && |pairs| !in PositiveOnes(pairs, edges, k);
    hide InBin, Inside, PositiveOnes;
  }

  lemma InsideThat(pairs: seq<Pair>, last: Pair, edges: seq<real>, k: nat)
    requires k + 1 < |edges|
    ensures Inside(pairs + [last], edges, k)
            == Inside(pairs, edges, k) + if InBin(edges, k, last.score) then {|pairs|} else {}
    ensures PositiveOnes(pairs + [last], edges, k)
            == PositiveOnes(pairs, edges, k)
               + if InBin(edges, k, last.score) && last.positive then {|pairs|} else {}
  {
    hide InBin;
    var longer, here := pairs + [last], InBin(edges, k, last.score);
    forall i: nat
      ensures i in Inside(longer, edges, k) <==> i in Inside(pairs, edges, k) || (here && i == |pairs|)
      ensures i in PositiveOnes(longer, edges, k)
              <==> i in PositiveOnes(pairs, edges, k) || (here && last.positive && i == |pairs|)
    {
      if i < |pairs| {
        assert longer[i] == pairs[i];
      }
    }
  }

  lemma {:induction false} CountsAreSizes(pairs: seq<Pair>, edges: seq<real>, k: nat)
    requires k + 1 < |edges|
    ensures CountIn(pairs, edges, k) == |Inside(pairs, edges, k)|
    ensures PositivesIn(pairs, edges, k) == |PositiveOnes(pairs, edges, k)|
    decreases |pairs|
  {
    if pairs != [] {
      var front, last := pairs[..|pairs| - 1], pairs[|pairs| - 1];
      CountsAreSizes(front, edges, k);
      hide Inside, PositiveOnes, InBin;
      InsideOneMore(front, last, edges, k);
      assert front + [last] == pairs;
    }
  }

  lemma {:induction false} SumSplits(a: seq<Pair>, b: seq<Pair>, edges: seq<real>, k: nat)
    requires k + 1 < |edges|
    ensures SumIn(a + b, edges, k) == SumIn(a, edges, k) + SumIn(b, edges, k)
    decreases |b|
  {
    hide InBin;
    if b == [] {
      assert a + b == a;
    } else {
      SumSplits(a, b[..|b| - 1], edges, k);
      assert (a + b)[..|a + b| - 1] == a + b[..|b| - 1];
    }
  }

  lemma SumOfOne(pair: Pair, edges: seq<real>, k: nat)
    requires k + 1 < |edges|
    ensures SumIn([pair], edges, k) == if InBin(edges, k, pair.score) then pair.score else 0.0
  {
    hide InBin;
    assert [pair][..0] == [];
  }

  /** What a bin says: how many pairs it holds, how many of them are positive, and the mean of their scores, which
      times their number is their sum. */
  lemma BinSays(pairs: seq<Pair>, edges: seq<real>, k: nat)
    requires k + 1 < |edges|
    ensures var bin := BinAt(pairs, edges, k);
            && bin.lo == edges[k] && bin.hi == edges[k + 1]
            && bin.n == |Inside(pairs, edges, k)| && bin.nPositive == |PositiveOnes(pairs, edges, k)|
            && (bin.mean.Some? ==> bin.mean.value * bin.n as real == SumIn(pairs, edges, k))
  {
    CountsAreSizes(pairs, edges, k);
  }

  /** A score on an edge belongs to the bin above it, and 1 to the last. */
  lemma EdgesBelongAbove(edges: seq<real>, k: nat)
    requires Spans(edges) && k + 1 < |edges| && edges[k] < edges[k + 1]
    ensures InBin(edges, k, edges[k]) && (k > 0 ==> !InBin(edges, k - 1, edges[k])) && InBin(edges, |edges| - 2, 1.0)
  {}
}
