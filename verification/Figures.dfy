/** The figures read off the confusion matrix of benchmark/metrics.py: its total, precision and recall, and
    the false Real report. */
module Figures {
  import opened Wrappers
  import opened Confusion

  // ---------------------------------------------------------------- sums of cells

  ghost function Sum(keys: set<string>, f: string -> nat): (n: nat) {
    if keys == {} then 0
    else
      var k :| k in keys;
      f(k) + Sum(keys - {k}, f)
  }

  lemma {:induction false} SumPick(keys: set<string>, f: string -> nat, x: string)
    requires x in keys
    ensures Sum(keys, f) == f(x) + Sum(keys - {x}, f)
    decreases keys
  {
    var k :| k in keys && Sum(keys, f) == f(k) + Sum(keys - {k}, f);
    if k != x {
      SumPick(keys - {k}, f, x);
      SumPick(keys - {x}, f, k);
      assert keys - {k} - {x} == keys - {x} - {k};
    }
  }

  // Raising one term raises the sum by as much.
  lemma {:induction false} SumBump(keys: set<string>, f: string -> nat, g: string -> nat, x: string, extra: nat)
    requires forall k :: k in keys ==> g(k) == f(k) + (if k == x then extra else 0)
    ensures Sum(keys, g) == Sum(keys, f) + (if x in keys then extra else 0)
    decreases keys
  {
    if keys != {} {
      var k :| k in keys;
      SumPick(keys, f, k);
      SumPick(keys, g, k);
      SumBump(keys - {k}, f, g, x, extra);
    }
  }

  function Predicted(pairs: seq<Pair>, pred: string): (n: nat) {
    if pairs == [] then 0
    else Predicted(pairs[..|pairs| - 1], pred) + (if pairs[|pairs| - 1].pred == pred then 1 else 0)
  }

  function Labelled(pairs: seq<Pair>, truth: string): (n: nat) {
    if pairs == [] then 0
    else Labelled(pairs[..|pairs| - 1], truth) + (if pairs[|pairs| - 1].truth == truth then 1 else 0)
  }

  lemma {:induction false} CountsSumToPredicted(pairs: seq<Pair>, keys: set<string>, pred: string)
    requires forall i :: 0 <= i < |pairs| ==> pairs[i].truth in keys
    ensures Sum(keys, t => Count(pairs, t, pred)) == Predicted(pairs, pred)
    decreases |pairs|
  {
    if pairs == [] {
      SumBump(keys, t => 0, t => Count(pairs, t, pred), "", 0);
      ZeroSum(keys);
    } else {
      var front, last := pairs[..|pairs| - 1], pairs[|pairs| - 1];
      CountsSumToPredicted(front, keys, pred);
      SumBump(keys, t => Count(front, t, pred), t => Count(pairs, t, pred), last.truth,
              if last.pred == pred then 1 else 0);
    }
  }

  // The pairs under a truth that are still counted.
  ghost function Kept(pairs: seq<Pair>, labels: set<string>, truth: string, n: nat): (count: nat)
    requires n <= |pairs|
  {
    if n == 0 then 0
    else Kept(pairs, labels, truth, n - 1)
         + (if pairs[n - 1].truth == truth && Counted(pairs, labels, n - 1) then 1 else 0)
  }

  lemma {:induction false} CountedSumToKept(pairs: seq<Pair>, labels: set<string>, keys: set<string>, truth: string,
                                            n: nat)
    requires n <= |pairs|
    requires forall i :: 0 <= i < n && pairs[i].truth == truth && Counted(pairs, labels, i) ==> pairs[i].pred in keys
    ensures Sum(keys, p => CountedAs(pairs, labels, truth, p, n)) == Kept(pairs, labels, truth, n)
    decreases n
  {
    hide Counted;
    if n == 0 {
      SumBump(keys, p => 0, p => CountedAs(pairs, labels, truth, p, n), "", 0);
      ZeroSum(keys);
    } else {
      var last := pairs[n - 1];
      CountedSumToKept(pairs, labels, keys, truth, n - 1);
      SumBump(keys, p => CountedAs(pairs, labels, truth, p, n - 1), p => CountedAs(pairs, labels, truth, p, n),
              last.pred, if last.truth == truth && Counted(pairs, labels, n - 1) then 1 else 0);
    }
  }

  // All pairs that are still counted.
  ghost function StillCounted(pairs: seq<Pair>, labels: set<string>, n: nat): (count: nat)
    requires n <= |pairs|
    ensures count <= n
  {
    if n == 0 then 0 else StillCounted(pairs, labels, n - 1) + (if Counted(pairs, labels, n - 1) then 1 else 0)
  }

  lemma {:induction false} KeptSumToStillCounted(pairs: seq<Pair>, labels: set<string>, keys: set<string>, n: nat)
    requires n <= |pairs| && forall i :: 0 <= i < n ==> pairs[i].truth in keys
    ensures Sum(keys, t => Kept(pairs, labels, t, n)) == StillCounted(pairs, labels, n)
    decreases n
  {
    hide Counted;
    if n == 0 {
      SumBump(keys, t => 0, t => Kept(pairs, labels, t, n), "", 0);
      ZeroSum(keys);
    } else {
      KeptSumToStillCounted(pairs, labels, keys, n - 1);
      SumBump(keys, t => Kept(pairs, labels, t, n - 1), t => Kept(pairs, labels, t, n), pairs[n - 1].truth,
              if Counted(pairs, labels, n - 1) then 1 else 0);
    }
  }

  lemma {:induction false} AllStillCounted(pairs: seq<Pair>, labels: set<string>, n: nat)
    requires n <= |pairs|
    ensures StillCounted(pairs, labels, n) == n <==> forall i :: 0 <= i < n ==> Counted(pairs, labels, i)
    decreases n
  {
    hide Counted;
    if n > 0 {
      AllStillCounted(pairs, labels, n - 1);
    }
  }

  // No pair under this truth was lost.
  ghost predicate RowCounted(pairs: seq<Pair>, labels: set<string>, truth: string) {
    forall i :: 0 <= i < |pairs| && pairs[i].truth == truth ==> Counted(pairs, labels, i)
  }

  lemma {:induction false} KeptAtMostLabelled(pairs: seq<Pair>, labels: set<string>, truth: string, n: nat)
    requires n <= |pairs|
    ensures Kept(pairs, labels, truth, n) <= Labelled(pairs[..n], truth)
    ensures Kept(pairs, labels, truth, n) == Labelled(pairs[..n], truth)
            <==> forall i :: 0 <= i < n && pairs[i].truth == truth ==> Counted(pairs, labels, i)
    decreases n
  {
    hide Counted;
    if n > 0 {
      KeptAtMostLabelled(pairs, labels, truth, n - 1);
      assert pairs[..n][..n - 1] == pairs[..n - 1];
    }
  }

  lemma {:induction false} ZeroSum(keys: set<string>)
    ensures Sum(keys, t => 0) == 0
    decreases keys
  {
    if keys != {} {
      var k :| k in keys;
      SumPick(keys, t => 0, k);
      ZeroSum(keys - {k});
      SumBump(keys - {k}, t => 0, t => 0, "", 0);
    }
  }

  // The column of a listed label is never cleared.
  lemma {:induction false} ListedColumnIsExact(pairs: seq<Pair>, labels: set<string>, truth: string, pred: string)
    requires pred in labels
    ensures Cell(Matrix(pairs, labels), truth, pred) == Count(pairs, truth, pred)
    decreases |pairs|
  {
    if pairs != [] {
      var front := pairs[..|pairs| - 1];
      ListedColumnIsExact(front, labels, truth, pred);
      RowsAreKnown(front, labels);
      TallyCells(Matrix(front, labels), pairs[|pairs| - 1], labels, truth, pred);
    }
  }

  ghost function ColumnSum(table: Table, pred: string): (n: nat) {
    Sum(table.Keys, t => Cell(table, t, pred))
  }

  ghost function RowSum(table: Table, truth: string): (n: nat) {
    if truth in table then Sum(table[truth].Keys, p => Cell(table, truth, p)) else 0
  }

  lemma ListedColumnSum(pairs: seq<Pair>, labels: set<string>, pred: string)
    requires pred in labels
    ensures ColumnSum(Matrix(pairs, labels), pred) == Predicted(pairs, pred)
  {
    var table := Matrix(pairs, labels);
    RowsAreKnown(pairs, labels);
    CountsSumToPredicted(pairs, table.Keys, pred);
    forall t ensures Cell(table, t, pred) == Count(pairs, t, pred) {
      ListedColumnIsExact(pairs, labels, t, pred);
    }
    SumBump(table.Keys, t => Count(pairs, t, pred), t => Cell(table, t, pred), "", 0);
  }

  lemma {:induction false} CountedIsCountedAs(pairs: seq<Pair>, labels: set<string>, i: nat, n: nat)
    requires i < n <= |pairs| && Counted(pairs, labels, i)
    ensures CountedAs(pairs, labels, pairs[i].truth, pairs[i].pred, n) > 0
    decreases n
  {
    hide Counted;
    if i < n - 1 {
      CountedIsCountedAs(pairs, labels, i, n - 1);
    }
  }

  // A row adds up to the pairs under its truth that are still counted.
  lemma RowSumIsKept(pairs: seq<Pair>, labels: set<string>, truth: string)
    requires truth in Matrix(pairs, labels)
    ensures RowSum(Matrix(pairs, labels), truth) == Kept(pairs, labels, truth, |pairs|)
  {
    hide Matrix, Counted, CountedAs;
    var table := Matrix(pairs, labels);
    forall p ensures Cell(table, truth, p) == CountedAs(pairs, labels, truth, p, |pairs|) {
      CellHoldsTheCounted(pairs, labels, truth, p);
    }
    forall i | 0 <= i < |pairs| && pairs[i].truth == truth && Counted(pairs, labels, i)
      ensures pairs[i].pred in table[truth]
    {
      CountedIsCountedAs(pairs, labels, i, |pairs|);
      assert Cell(table, truth, pairs[i].pred) > 0;
    }
    CountedSumToKept(pairs, labels, table[truth].Keys, truth, |pairs|);
    SumBump(table[truth].Keys, p => CountedAs(pairs, labels, truth, p, |pairs|), p => Cell(table, truth, p), "", 0);
  }

  // All cells together.
  ghost function Total(table: Table): (n: nat) {
    Sum(table.Keys, t => RowSum(table, t))
  }

  lemma TotalIsStillCounted(pairs: seq<Pair>, labels: set<string>)
    ensures Total(Matrix(pairs, labels)) == StillCounted(pairs, labels, |pairs|)
  {
    hide Matrix, Counted, RowSum, Kept;
    var table := Matrix(pairs, labels);
    RowsAreKnown(pairs, labels);
    forall t | t in table ensures RowSum(table, t) == Kept(pairs, labels, t, |pairs|) {
      RowSumIsKept(pairs, labels, t);
    }
    KeptSumToStillCounted(pairs, labels, table.Keys, |pairs|);
    SumBump(table.Keys, t => Kept(pairs, labels, t, |pairs|), t => RowSum(table, t), "", 0);
  }

  /** All cells together are at most the pairs, and all of them exactly when nothing clashes. */
  lemma TotalIffNothingClashes(pairs: seq<Pair>, labels: set<string>)
    ensures Total(Matrix(pairs, labels)) <= |pairs|
    ensures Total(Matrix(pairs, labels)) == |pairs| <==> !Loses(pairs, labels)
  {
    hide Matrix, Counted, Total, StillCounted, Loses;
    TotalIsStillCounted(pairs, labels);
    AllStillCounted(pairs, labels, |pairs|);
    AllCountedIffNothingClashes(pairs, labels);
  }

  method SumColumn(table: Table, pred: string) returns (n: nat)
    ensures n == ColumnSum(table, pred)
  {
    n := 0;
    var pending := table.Keys;
    while pending != {}
      invariant pending <= table.Keys
      invariant n + Sum(pending, t => Cell(table, t, pred)) == ColumnSum(table, pred)
    {
      var t :| t in pending;
      SumPick(pending, t => Cell(table, t, pred), t);
      n := n + (if pred in table[t] then table[t][pred] else 0);
      pending := pending - {t};
    }
  }

  method SumRow(table: Table, truth: string) returns (n: nat)
    ensures n == RowSum(table, truth)
  {
    n := 0;
    if truth in table {
      var pending := table[truth].Keys;
      while pending != {}
        invariant pending <= table[truth].Keys
        invariant n + Sum(pending, p => Cell(table, truth, p)) == RowSum(table, truth)
      {
        var p :| p in pending;
        SumPick(pending, p => Cell(table, truth, p), p);
        n := n + table[truth][p];
        pending := pending - {p};
      }
    }
  }

  function Ratio(part: nat, whole: nat): (ratio: Option<real>) {
    if whole == 0 then None else Some(part as real / whole as real)
  }

  // The pairs of one prediction, of one truth, of both, and those under a truth that are still counted.
  function PredictedAs(pairs: seq<Pair>, pred: string): (at: set<nat>) {
    set i: nat | i < |pairs| && pairs[i].pred == pred
  }

  function LabelledAs(pairs: seq<Pair>, truth: string): (at: set<nat>) {
    set i: nat | i < |pairs| && pairs[i].truth == truth
  }

  function Hits(pairs: seq<Pair>, name: string): (at: set<nat>) {
    PredictedAs(pairs, name) * LabelledAs(pairs, name)
  }

  ghost function KeptAs(pairs: seq<Pair>, labels: set<string>, truth: string): (at: set<nat>) {
    set i | i in LabelledAs(pairs, truth) && Counted(pairs, labels, i)
  }

  // A figure is the share of some things among others, and missing exactly when there are none.
  ghost predicate IsShare(figure: Option<real>, part: nat, whole: nat) {
    && (figure == None <==> whole == 0)
    && (figure.Some? ==> figure.value * whole as real == part as real)
  }

  lemma RatioIsShare(part: nat, whole: nat)
    ensures IsShare(Ratio(part, whole), part, whole)
  {}

  lemma {:induction false} PredictedIsCounted(pairs: seq<Pair>, pred: string)
    ensures Predicted(pairs, pred) == |PredictedAs(pairs, pred)|
    decreases |pairs|
  {
    if pairs != [] {
      var n := |pairs| - 1;
      PredictedIsCounted(pairs[..n], pred);
      assert PredictedAs(pairs, pred) == PredictedAs(pairs[..n], pred) + if pairs[n].pred == pred then {n} else {};
    }
  }

  lemma {:induction false} LabelledIsCounted(pairs: seq<Pair>, truth: string)
    ensures Labelled(pairs, truth) == |LabelledAs(pairs, truth)|
    decreases |pairs|
  {
    if pairs != [] {
      var n := |pairs| - 1;
      LabelledIsCounted(pairs[..n], truth);
      assert LabelledAs(pairs, truth) == LabelledAs(pairs[..n], truth) + if pairs[n].truth == truth then {n} else {};
    }
  }

  lemma {:induction false} HitsAreCounted(pairs: seq<Pair>, name: string)
    ensures Count(pairs, name, name) == |Hits(pairs, name)|
    decreases |pairs|
  {
    if pairs != [] {
      var n := |pairs| - 1;
      HitsAreCounted(pairs[..n], name);
      assert Hits(pairs, name) == Hits(pairs[..n], name) + if pairs[n] == Pair(name, name) then {n} else {};
    }
  }

  lemma {:induction false} KeptIsCounted(pairs: seq<Pair>, labels: set<string>, truth: string, n: nat)
    requires n <= |pairs|
    ensures Kept(pairs, labels, truth, n) == |set i | i in KeptAs(pairs, labels, truth) && i < n|
    decreases n
  {
    hide Counted;
    if n > 0 {
      KeptIsCounted(pairs, labels, truth, n - 1);
      var kept := KeptAs(pairs, labels, truth);
      assert (set i | i in kept && i < n) == (set i | i in kept && i < n - 1) + (if n - 1 in kept then {n - 1} else {});
    }
  }

  lemma AllKeptAreCounted(pairs: seq<Pair>, labels: set<string>, truth: string)
    ensures Kept(pairs, labels, truth, |pairs|) == |KeptAs(pairs, labels, truth)|
  {
    KeptIsCounted(pairs, labels, truth, |pairs|);
    assert (set i | i in KeptAs(pairs, labels, truth) && i < |pairs|) == KeptAs(pairs, labels, truth);
  }

  /** A precision is perfect exactly when the label was predicted and every time rightly, and zero exactly when it
      was predicted and never rightly. */
  lemma PerfectIffNeverWrong(pairs: seq<Pair>, name: string, precision: Option<real>)
    requires IsShare(precision, |Hits(pairs, name)|, |PredictedAs(pairs, name)|)
    ensures precision == Some(1.0)
            <==> PredictedAs(pairs, name) != {} && forall i :: i in PredictedAs(pairs, name) ==> pairs[i].truth == name
    ensures precision == Some(0.0)
            <==> PredictedAs(pairs, name) != {} && forall i :: i in PredictedAs(pairs, name) ==> pairs[i].truth != name
  {
    var hits, predicted := Hits(pairs, name), PredictedAs(pairs, name);
    hide IsShare;
    FullOrEmptyShare(hits, predicted, precision);
    forall i | i in predicted ensures i in hits <==> pairs[i].truth == name {}
  }

  lemma SameFactor(a: real, b: real, c: real)
    requires c > 0.0
    ensures a * c == b * c <==> a == b
  {
    assert (a - b) * c == a * c - b * c;
  }

  lemma FullOrEmptyShare(some: set<nat>, all: set<nat>, figure: Option<real>)
    requires some <= all && IsShare(figure, |some|, |all|)
    ensures figure == Some(1.0) <==> all != {} && some == all
    ensures figure == Some(0.0) <==> all != {} && some == {}
  {
    assert |all - some| == |all| - |some|;
    if |some| == |all| {
      assert all - some == {};
      if all != {} {
        SameFactor(figure.value, 1.0, |all| as real);
      }
    }
  }

  /** precision_recall: the precision of every label is right for every input; its recall is taken over the
      pairs of its row that are still counted. */
  method PrecisionRecall(pairs: seq<Pair>, labels: set<string>)
    returns (precision: map<string, Option<real>>, recall: map<string, Option<real>>, matrix: Table)
    ensures matrix == Matrix(pairs, labels) && precision.Keys == recall.Keys == labels
    ensures forall l :: l in labels ==> precision[l] == Ratio(Count(pairs, l, l), Predicted(pairs, l))
    ensures forall l :: l in labels ==> recall[l] == Ratio(Count(pairs, l, l), Kept(pairs, labels, l, |pairs|))
    ensures forall l :: l in labels ==> IsShare(precision[l], |Hits(pairs, l)|, |PredictedAs(pairs, l)|)
    ensures forall l :: l in labels ==> IsShare(recall[l], |Hits(pairs, l)|, |KeptAs(pairs, labels, l)|)
  {
    hide Matrix, Count, Predicted, Kept, Ratio, ColumnSum, RowSum, IsShare, Hits, PredictedAs, KeptAs;
    matrix := ConfusionMatrix(pairs, labels);
    precision, recall := map[], map[];
    var pending := labels;
    while pending != {}
      invariant pending <= labels && precision.Keys == recall.Keys == labels - pending
      invariant forall l :: l in precision ==> precision[l] == Ratio(Count(pairs, l, l), Predicted(pairs, l))
      invariant forall l :: l in recall ==> recall[l] == Ratio(Count(pairs, l, l), Kept(pairs, labels, l, |pairs|))
    {
      var l :| l in pending;
      var predicted := SumColumn(matrix, l);
      var labelled := SumRow(matrix, l);
      var hits := Cell(matrix, l, l);
      ListedColumnIsExact(pairs, labels, l, l);
      ListedColumnSum(pairs, labels, l);
      RowsAreKnown(pairs, labels);
      RowSumIsKept(pairs, labels, l);
      precision := precision[l := Ratio(hits, predicted)];
      recall := recall[l := Ratio(hits, labelled)];
      pending := pending - {l};
    }
    forall l | l in labels
      ensures IsShare(precision[l], |Hits(pairs, l)|, |PredictedAs(pairs, l)|)
      ensures IsShare(recall[l], |Hits(pairs, l)|, |KeptAs(pairs, labels, l)|)
    {
      RatiosAreShares(pairs, labels, l);
    }
  }

  lemma RatiosAreShares(pairs: seq<Pair>, labels: set<string>, name: string)
    ensures IsShare(Ratio(Count(pairs, name, name), Predicted(pairs, name)),
                    |Hits(pairs, name)|, |PredictedAs(pairs, name)|)
    ensures IsShare(Ratio(Count(pairs, name, name), Kept(pairs, labels, name, |pairs|)),
                    |Hits(pairs, name)|, |KeptAs(pairs, labels, name)|)
  {
    hide IsShare, Ratio, Hits, PredictedAs, KeptAs, Counted;
    HitsAreCounted(pairs, name);
    PredictedIsCounted(pairs, name);
    AllKeptAreCounted(pairs, labels, name);
    RatioIsShare(|Hits(pairs, name)|, |PredictedAs(pairs, name)|);
    RatioIsShare(|Hits(pairs, name)|, |KeptAs(pairs, labels, name)|);
  }

  lemma RatiosAgree(part: nat, less: nat, whole: nat)
    requires less <= whole
    ensures Ratio(part, less) == Ratio(part, whole) <==> less == whole || (part == 0 && less > 0)
  {
    if 0 < less < whole && part > 0 {
      var a, b, c := part as real, less as real, whole as real;
      assert a / b * (b * c) == a * c && a / c * (b * c) == a * b;
      assert a * c > a * b;
    }
  }

  /** So the recall of a label is right exactly when no pair under it was lost, or when none of it was found
      and something under it is still counted. */
  lemma RecallIsRightIff(pairs: seq<Pair>, labels: set<string>, name: string, recall: Option<real>)
    requires IsShare(recall, |Hits(pairs, name)|, |KeptAs(pairs, labels, name)|)
    ensures IsShare(recall, |Hits(pairs, name)|, |LabelledAs(pairs, name)|)
            <==> RowCounted(pairs, labels, name) || (Hits(pairs, name) == {} && KeptAs(pairs, labels, name) != {})
  {
    hide Counted, Kept, Labelled, Ratio, Hits, LabelledAs, KeptAs, IsShare;
    var hits, kept, labelled := |Hits(pairs, name)|, |KeptAs(pairs, labels, name)|, |LabelledAs(pairs, name)|;
    KeptAtMostLabelled(pairs, labels, name, |pairs|);
    assert pairs[..|pairs|] == pairs;
    AllKeptAreCounted(pairs, labels, name);
    LabelledIsCounted(pairs, name);
    ShareIsRatio(recall, hits, kept);
    ShareIsRatio(recall, hits, labelled);
    RatiosAgree(hits, kept, labelled);
  }

  lemma ShareIsRatio(figure: Option<real>, part: nat, whole: nat)
    ensures IsShare(figure, part, whole) <==> figure == Ratio(part, whole)
  {
    if whole > 0 && figure.Some? {
      SameFactor(figure.value, part as real / whole as real, whole as real);
    }
  }

  // ---------------------------------------------------------------- the false Real report

  const REAL := "real"

  // The count of false_real_report: published as Real, labelled something else.
  function FalseReal(pairs: seq<Pair>): (n: nat) {
    if pairs == [] then 0
    else
      var last := pairs[|pairs| - 1];
      FalseReal(pairs[..|pairs| - 1]) + (if last.pred == REAL && last.truth != REAL then 1 else 0)
  }

  lemma {:induction false} FalseRealIsTheRest(pairs: seq<Pair>)
    ensures FalseReal(pairs) + Count(pairs, REAL, REAL) == Predicted(pairs, REAL)
    decreases |pairs|
  {
    if pairs != [] {
      FalseRealIsTheRest(pairs[..|pairs| - 1]);
    }
  }

  /** The false Reals are the column of real without its diagonal, whatever else the matrix lost. */
  lemma FalseRealAgreesWithTheMatrix(pairs: seq<Pair>, labels: set<string>)
    requires REAL in labels
    ensures FalseReal(pairs) == ColumnSum(Matrix(pairs, labels), REAL) - Cell(Matrix(pairs, labels), REAL, REAL)
  {
    FalseRealIsTheRest(pairs);
    ListedColumnSum(pairs, labels, REAL);
    ListedColumnIsExact(pairs, labels, REAL, REAL);
  }

  datatype Item = Item(id: string, truth: string, pred: string)

  datatype Report = Report(count: nat, n: nat, nNotReal: nat, amongAll: Option<real>, amongNotReal: Option<real>,
                           ids: seq<string>)

  function PairsOf(items: seq<Item>): (pairs: seq<Pair>)
    ensures |pairs| == |items|
  {
    if items == [] then []
    else PairsOf(items[..|items| - 1]) + [Pair(items[|items| - 1].truth, items[|items| - 1].pred)]
  }

  predicate IsFalseReal(item: Item) {
    item.pred == REAL && item.truth != REAL
  }

  // The ids of the false Reals, in order.
  function FalseIds(items: seq<Item>): (ids: seq<string>) {
    if items == [] then []
    else
      var last := items[|items| - 1];
      FalseIds(items[..|items| - 1]) + (if IsFalseReal(last) then [last.id] else [])
  }

  ghost predicate Reported(items: seq<Item>, ids: seq<string>, notReal: nat) {
    && |ids| == FalseReal(PairsOf(items)) && ids == FalseIds(items)
    && notReal + Labelled(PairsOf(items), REAL) == |items| && |ids| <= notReal
  }

  lemma OneMoreReported(items: seq<Item>, ids: seq<string>, notReal: nat, item: Item)
    requires Reported(items, ids, notReal)
    ensures Reported(items + [item], if IsFalseReal(item) then ids + [item.id] else ids,
                     if item.truth != REAL then notReal + 1 else notReal)
  {
    var longer := items + [item];
    assert longer[..|items|] == items;
    assert PairsOf(longer)[..|items|] == PairsOf(items);
  }

  // What a report says of its items.
  ghost predicate Describes(report: Report, items: seq<Item>) {
    && report.ids == FalseIds(items) && |report.ids| == report.count == FalseReal(PairsOf(items))
    && report.n == |items| && report.nNotReal + Labelled(PairsOf(items), REAL) == |items|
    && report.count <= report.nNotReal
    && IsShare(report.amongAll, report.count, |items|) && IsShare(report.amongNotReal, report.count, report.nNotReal)
  }

  // The places of the items published as Real and labelled otherwise, all of them and in order.
  ghost predicate AreFalse(items: seq<Item>, at: seq<nat>) {
    && (forall k :: 0 <= k < |at| ==> at[k] < |items| && IsFalseReal(items[at[k]]))
    && (forall j, k :: 0 <= j < k < |at| ==> at[j] < at[k])
    && (forall i: nat :: i < |items| && IsFalseReal(items[i]) ==> i in at)
  }

  ghost predicate IdsAt(items: seq<Item>, at: seq<nat>, ids: seq<string>) {
    |at| == |ids| && forall k :: 0 <= k < |at| ==> at[k] < |items| && ids[k] == items[at[k]].id
  }

  /** The ids listed are those of the items published as Real and labelled otherwise, each item once and in order. */
  lemma {:induction false} FalseIdsAreListed(items: seq<Item>) returns (at: seq<nat>)
    ensures AreFalse(items, at) && IdsAt(items, at, FalseIds(items))
    decreases |items|
  {
    if items == [] {
      at := [];
    } else {
      hide AreFalse, IdsAt, IsFalseReal;
      var front := FalseIdsAreListed(items[..|items| - 1]);
      if IsFalseReal(items[|items| - 1]) {
        at := front + [|items| - 1];
        FalseAfter(items, front, FalseIds(items[..|items| - 1]));
      } else {
        at := front;
        RightAfter(items, front, FalseIds(items[..|items| - 1]));
      }
    }
  }

  lemma RightAfter(items: seq<Item>, front: seq<nat>, ids: seq<string>)
    requires items != [] && AreFalse(items[..|items| - 1], front) && IdsAt(items[..|items| - 1], front, ids)
    requires !IsFalseReal(items[|items| - 1])
    ensures AreFalse(items, front) && IdsAt(items, front, ids)
  {
    hide IsFalseReal;
    forall i: nat | i < |items| && IsFalseReal(items[i]) ensures i in front {
      assert items[..|items| - 1][i] == items[i];
    }
  }

  lemma FalseAfter(items: seq<Item>, front: seq<nat>, ids: seq<string>)
    requires items != [] && AreFalse(items[..|items| - 1], front) && IdsAt(items[..|items| - 1], front, ids)
    requires IsFalseReal(items[|items| - 1])
    ensures AreFalse(items, front + [|items| - 1])
            && IdsAt(items, front + [|items| - 1], ids + [items[|items| - 1].id])
  {
    hide IsFalseReal;
    var at := front + [|items| - 1];
    forall i: nat | i < |items| && IsFalseReal(items[i]) ensures i in at {
      if i < |items| - 1 {
        assert items[..|items| - 1][i] == items[i];
      } else {
        assert at[|front|] == i;
      }
    }
  }

  /** false_real_report: its count is that of the matrix column, its rates are over all items and over those not
      labelled real, and it lists the offending ids in order. */
  method FalseRealReport(items: seq<Item>) returns (report: Report)
    ensures Describes(report, items)
  {
    hide Ratio, FalseReal, Labelled;
    var ids, notReal := [], 0;
    NothingReported();
    for i := 0 to |items|
      invariant Reported(items[..i], ids, notReal)
    {
      hide Reported;
      var item := items[i];
      assert items[..i + 1] == items[..i] + [item];
      OneMoreReported(items[..i], ids, notReal, item);
      if IsFalseReal(item) {
        ids := ids + [item.id];
      }
      if item.truth != REAL {
        notReal := notReal + 1;
      }
    }
    assert items[..|items|] == items;
    RatioIsShare(|ids|, |items|);
    RatioIsShare(|ids|, notReal);
    report := Report(|ids|, |items|, notReal, Ratio(|ids|, |items|), Ratio(|ids|, notReal), ids);
  }

  lemma NothingReported()
    ensures Reported([], [], 0)
  {}
}
