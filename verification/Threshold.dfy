/** Choosing an operating point, benchmark/threshold.py, over exact reals. Rounding is any monotone
    function of the rate, so the results hold for whatever rounding the rows are stored with. */
module Threshold {
  import opened Wrappers

  datatype Pair = Pair(score: real, positive: bool)

  datatype Row = Row(threshold: real, tpr: real, fpr: real, nPositive: nat, nNegative: nat)

  ghost predicate Monotone(round: real -> real) {
    forall x, y :: x <= y ==> round(x) <= round(y)
  }

  function CountOf(pairs: seq<Pair>, positive: bool): (n: nat) {
    if pairs == [] then 0
    else CountOf(pairs[1..], positive) + (if pairs[0].positive == positive then 1 else 0)
  }

  function CountAbove(pairs: seq<Pair>, positive: bool, threshold: real): (n: nat) {
    if pairs == [] then 0
    else CountAbove(pairs[1..], positive, threshold)
         + (if pairs[0].positive == positive && pairs[0].score >= threshold then 1 else 0)
  }

  function Share(hits: nat, n: nat): (share: real) {
    if n == 0 then 0.0 else hits as real / n as real
  }

  // rates, for the positive pairs and for the negative ones.
  function Rate(pairs: seq<Pair>, positive: bool, threshold: real): (rate: real) {
    Share(CountAbove(pairs, positive, threshold), CountOf(pairs, positive))
  }

  function RowAt(pairs: seq<Pair>, step: nat, round: real -> real): (row: Row) {
    var threshold := step as real / 100.0;
    Row(threshold, round(Rate(pairs, true, threshold)), round(Rate(pairs, false, threshold)),
        CountOf(pairs, true), CountOf(pairs, false))
  }

  ghost predicate IsSweep(rows: seq<Row>, pairs: seq<Pair>, round: real -> real) {
    |rows| == 60 && forall i :: 0 <= i < 60 ==> rows[i] == RowAt(pairs, 40 + i, round)
  }

  method Sweep(pairs: seq<Pair>, round: real -> real) returns (rows: seq<Row>)
    ensures IsSweep(rows, pairs, round)
  {
    rows := [];
    for step := 40 to 100
      invariant |rows| == step - 40
      invariant forall i :: 0 <= i < |rows| ==> rows[i] == RowAt(pairs, 40 + i, round)
    {
      rows := rows + [RowAt(pairs, step, round)];
    }
  }

  // ---------------------------------------------------------------- the choice

  function Allowed(rows: seq<Row>, ceiling: real): (allowed: seq<Row>) {
    if rows == [] then []
    else (if rows[0].fpr <= ceiling then [rows[0]] else []) + Allowed(rows[1..], ceiling)
  }

  // The order of max's key (tpr, -threshold).
  predicate Better(a: Row, b: Row) {
    a.tpr > b.tpr || (a.tpr == b.tpr && -a.threshold > -b.threshold)
  }

  // Python's max: the first row no later row beats.
  function Best(rows: seq<Row>): (best: Row)
    requires rows != []
  {
    if |rows| == 1 then rows[0]
    else
      var front := Best(rows[..|rows| - 1]);
      if Better(rows[|rows| - 1], front) then rows[|rows| - 1] else front
  }

  function Choose(rows: seq<Row>, ceiling: real): (chosen: Option<Row>) {
    var allowed := Allowed(rows, ceiling);
    if allowed == [] then None else Some(Best(allowed))
  }

  // ---------------------------------------------------------------- the choice is the lowest threshold

  lemma {:induction false} CountFalls(pairs: seq<Pair>, positive: bool, low: real, high: real)
    requires low <= high
    ensures CountAbove(pairs, positive, high) <= CountAbove(pairs, positive, low)
  {
    if pairs != [] {
      CountFalls(pairs[1..], positive, low, high);
    }
  }

  lemma ShareGrows(a: nat, b: nat, n: nat)
    requires a <= b
    ensures Share(a, n) <= Share(b, n)
  {}

  // Raising the threshold can only lower both rates.
  lemma RatesFall(pairs: seq<Pair>, positive: bool, low: real, high: real)
    requires low <= high
    ensures Rate(pairs, positive, high) <= Rate(pairs, positive, low)
  {
    CountFalls(pairs, positive, low, high);
    ShareGrows(CountAbove(pairs, positive, high), CountAbove(pairs, positive, low), CountOf(pairs, positive));
  }

  // What every sweep looks like: thresholds rise, both stored rates fall.
  ghost predicate Falls(rows: seq<Row>) {
    forall i, j :: 0 <= i < j < |rows| ==>
      rows[i].threshold < rows[j].threshold && rows[j].tpr <= rows[i].tpr && rows[j].fpr <= rows[i].fpr
  }

  lemma SweepFalls(rows: seq<Row>, pairs: seq<Pair>, round: real -> real)
    requires IsSweep(rows, pairs, round) && Monotone(round)
    ensures Falls(rows)
  {
    forall i, j | 0 <= i < j < |rows|
      ensures rows[i].threshold < rows[j].threshold && rows[j].tpr <= rows[i].tpr && rows[j].fpr <= rows[i].fpr
    {
      RatesFall(pairs, true, rows[i].threshold, rows[j].threshold);
      RatesFall(pairs, false, rows[i].threshold, rows[j].threshold);
    }
  }

  // Where the first row fits below the ceiling, all rows do, and none beats the first.
  lemma {:induction false} AllFit(rows: seq<Row>, ceiling: real)
    requires Falls(rows) && (rows != [] ==> rows[0].fpr <= ceiling)
    ensures Allowed(rows, ceiling) == rows
  {
    if rows != [] {
      if |rows| > 1 {
        assert rows[1].fpr <= rows[0].fpr;
      }
      AllFit(rows[1..], ceiling);
    }
  }

  lemma {:induction false} FirstIsBest(rows: seq<Row>)
    requires Falls(rows) && rows != []
    ensures Best(rows) == rows[0]
    decreases |rows|
  {
    if |rows| > 1 {
      FirstIsBest(rows[..|rows| - 1]);
    }
  }

  lemma {:induction false} AllowedFromFirst(rows: seq<Row>, ceiling: real, i: nat)
    requires Falls(rows) && i < |rows| && rows[i].fpr <= ceiling
    requires forall k :: 0 <= k < i ==> rows[k].fpr > ceiling
    ensures Allowed(rows, ceiling) == rows[i..]
  {
    if i == 0 {
      AllFit(rows, ceiling);
    } else {
      AllowedFromFirst(rows[1..], ceiling, i - 1);
      assert rows[1..][i - 1..] == rows[i..];
    }
  }

  lemma {:induction false} NothingAllowed(rows: seq<Row>, ceiling: real)
    ensures Allowed(rows, ceiling) == [] <==> forall k :: 0 <= k < |rows| ==> rows[k].fpr > ceiling
  {
    if rows != [] {
      NothingAllowed(rows[1..], ceiling);
      assert forall k :: 0 < k < |rows| ==> rows[k] == rows[1..][k - 1];
    }
  }

  ghost predicate IsLowestWithin(rows: seq<Row>, ceiling: real, i: nat)
    requires i < |rows|
  {
    && rows[i].fpr <= ceiling
    && (forall k :: 0 <= k < i ==> rows[k].fpr > ceiling)
    && (forall k :: 0 <= k < |rows| && rows[k].fpr <= ceiling ==> rows[k].tpr <= rows[i].tpr)
  }

  /** On a sweep the chosen row is the one with the lowest threshold within the false-positive ceiling,
      and no row within the ceiling finds more; nothing is chosen exactly when no row is within it. */
  lemma ChoosesTheLowest(rows: seq<Row>, pairs: seq<Pair>, round: real -> real, ceiling: real)
    requires IsSweep(rows, pairs, round) && Monotone(round)
    ensures Choose(rows, ceiling) == None <==> forall k :: 0 <= k < |rows| ==> rows[k].fpr > ceiling
    ensures Choose(rows, ceiling).Some? ==>
              exists i :: 0 <= i < |rows| && Choose(rows, ceiling) == Some(rows[i]) && IsLowestWithin(rows, ceiling, i)
  {
    hide RowAt, Allowed, Best;
    SweepFalls(rows, pairs, round);
    NothingAllowed(rows, ceiling);
    if Choose(rows, ceiling).Some? {
      var k :| 0 <= k < |rows| && rows[k].fpr <= ceiling;
      var i := FirstWithin(rows, ceiling, k);
      AllowedFromFirst(rows, ceiling, i);
      FirstIsBest(rows[i..]);
      assert IsLowestWithin(rows, ceiling, i);
    }
  }

  lemma FirstWithin(rows: seq<Row>, ceiling: real, k: nat) returns (i: nat)
    requires k < |rows| && rows[k].fpr <= ceiling
    ensures i <= k && rows[i].fpr <= ceiling && forall j :: 0 <= j < i ==> rows[j].fpr > ceiling
  {
    i := 0;
    while rows[i].fpr > ceiling
      invariant i <= k && forall j :: 0 <= j < i ==> rows[j].fpr > ceiling
      decreases k - i
    {
      i := i + 1;
    }
  }

  // ---------------------------------------------------------------- on any rows

  ghost predicate Within(rows: seq<Row>, ceiling: real, i: int) {
    0 <= i < |rows| && rows[i].fpr <= ceiling
  }

  lemma {:induction false} AllowedAreWithin(rows: seq<Row>, ceiling: real, r: Row)
    ensures r in Allowed(rows, ceiling) <==> exists i :: Within(rows, ceiling, i) && rows[i] == r
  {
    if rows != [] {
      AllowedAreWithin(rows[1..], ceiling, r);
      if i :| Within(rows[1..], ceiling, i) && rows[1..][i] == r {
        assert Within(rows, ceiling, i + 1) && rows[i + 1] == r;
      }
      if i :| Within(rows, ceiling, i) && rows[i] == r {
        assert if i == 0 then Allowed(rows, ceiling)[0] == r
               else Within(rows[1..], ceiling, i - 1) && rows[1..][i - 1] == r;
      } else {
        assert !Within(rows, ceiling, 0) || rows[0] != r;
      }
    }
  }

  lemma {:induction false} NothingBeatsTheBest(rows: seq<Row>)
    requires rows != []
    ensures Best(rows) in rows && forall r :: r in rows ==> !Better(r, Best(rows))
    decreases |rows|
  {
    if |rows| > 1 {
      var front, last := rows[..|rows| - 1], rows[|rows| - 1];
      NothingBeatsTheBest(front);
      assert rows == front + [last];
    }
  }

  // Of the rows within the ceiling, one with the lowest threshold finds as much as any.
  ghost predicate LowestFindsMost(rows: seq<Row>, ceiling: real) {
    exists i :: Within(rows, ceiling, i)
                && forall k :: Within(rows, ceiling, k) ==>
                     rows[i].threshold <= rows[k].threshold && rows[k].tpr <= rows[i].tpr
  }

  /** The choice on any rows: it is within the ceiling, nothing within it finds more, and it has the lowest
      threshold exactly when a row with the lowest threshold finds as much as any. */
  lemma LowestIffItFindsMost(rows: seq<Row>, ceiling: real)
    requires Choose(rows, ceiling).Some?
    ensures var chosen := Choose(rows, ceiling).value;
            && (exists i :: Within(rows, ceiling, i) && rows[i] == chosen)
            && (forall k :: Within(rows, ceiling, k) ==> rows[k].tpr <= chosen.tpr)
            && ((forall k :: Within(rows, ceiling, k) ==> chosen.threshold <= rows[k].threshold)
                <==> LowestFindsMost(rows, ceiling))
  {
    hide Allowed, Best;
    var chosen := Choose(rows, ceiling).value;
    NothingBeatsTheBest(Allowed(rows, ceiling));
    AllowedAreWithin(rows, ceiling, chosen);
    var c :| Within(rows, ceiling, c) && rows[c] == chosen;
    forall k | Within(rows, ceiling, k) ensures !Better(rows[k], chosen) {
      AllowedAreWithin(rows, ceiling, rows[k]);
    }
  }

  // ---------------------------------------------------------------- what a row of a sweep says

  // The pairs of one kind, and those of them that score at least the threshold.
  function Of(pairs: seq<Pair>, positive: bool): (at: set<nat>) {
    set i: nat | i < |pairs| && pairs[i].positive == positive
  }

  function Found(pairs: seq<Pair>, positive: bool, threshold: real): (at: set<nat>) {
    set i | i in Of(pairs, positive) && pairs[i].score >= threshold
  }

  lemma {:induction false} OneMorePair(pairs: seq<Pair>, last: Pair, positive: bool, threshold: real)
    ensures CountOf(pairs + [last], positive) == CountOf(pairs, positive) + if last.positive == positive then 1 else 0
    ensures CountAbove(pairs + [last], positive, threshold)
            == CountAbove(pairs, positive, threshold)
               + if last.positive == positive && last.score >= threshold then 1 else 0
  {
    if pairs != [] {
      OneMorePair(pairs[1..], last, positive, threshold);
      assert (pairs + [last])[1..] == pairs[1..] + [last];
    }
  }

  lemma OfOneMore(pairs: seq<Pair>, last: Pair, positive: bool)
    ensures |Of(pairs + [last], positive)| == |Of(pairs, positive)| + if last.positive == positive then 1 else 0
  {
    assert Of(pairs + [last], positive) == Of(pairs, positive) + if last.positive == positive then {|pairs|} else {};
  }

  lemma FoundOneMore(pairs: seq<Pair>, last: Pair, positive: bool, threshold: real)
    ensures |Found(pairs + [last], positive, threshold)|
            == |Found(pairs, positive, threshold)|
               + if last.positive == positive && last.score >= threshold then 1 else 0
  {
    assert Found(pairs + [last], positive, threshold)
           == Found(pairs, positive, threshold)
              + if last.positive == positive && last.score >= threshold then {|pairs|} else {};
  }

  lemma {:induction false} CountsAreSizes(pairs: seq<Pair>, positive: bool, threshold: real)
    ensures CountOf(pairs, positive) == |Of(pairs, positive)|
    ensures CountAbove(pairs, positive, threshold) == |Found(pairs, positive, threshold)|
    decreases |pairs|
  {
    if pairs != [] {
      var front, last := pairs[..|pairs| - 1], pairs[|pairs| - 1];
      CountsAreSizes(front, positive, threshold);
      hide Of, Found, CountOf, CountAbove;
      OneMorePair(front, last, positive, threshold);
      OfOneMore(front, last, positive);
      FoundOneMore(front, last, positive, threshold);
      assert front + [last] == pairs;
    }
  }

  // The share of some among others; none of none is nothing.
  ghost predicate IsRate(rate: real, part: nat, whole: nat) {
    rate * whole as real == part as real && (whole == 0 ==> rate == 0.0)
  }

  /** Every row of a sweep: its threshold, and of the positive pairs and of the negative ones, the share that scores at
      least as much, as it is rounded. */
  lemma RowsSayTheRates(rows: seq<Row>, pairs: seq<Pair>, round: real -> real, i: nat) returns (tpr: real, fpr: real)
    requires IsSweep(rows, pairs, round) && i < 60
    ensures var row := rows[i];
            && row.threshold * 100.0 == 40.0 + i as real
            && row.tpr == round(tpr) && IsRate(tpr, |Found(pairs, true, row.threshold)|, |Of(pairs, true)|)
            && row.fpr == round(fpr) && IsRate(fpr, |Found(pairs, false, row.threshold)|, |Of(pairs, false)|)
            && row.nPositive == |Of(pairs, true)| && row.nNegative == |Of(pairs, false)|
  {
    hide Of, Found, CountOf, CountAbove;
    var threshold := rows[i].threshold;
    tpr, fpr := Rate(pairs, true, threshold), Rate(pairs, false, threshold);
    CountsAreSizes(pairs, true, threshold);
    CountsAreSizes(pairs, false, threshold);
    NothingOfNothing(pairs, true, threshold);
    NothingOfNothing(pairs, false, threshold);
  }

  lemma NothingOfNothing(pairs: seq<Pair>, positive: bool, threshold: real)
    ensures |Found(pairs, positive, threshold)| <= |Of(pairs, positive)|
  {
    var all, found := Of(pairs, positive), Found(pairs, positive, threshold);
    assert |all - found| == |all| - |found|;
  }
}
