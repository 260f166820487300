/** The confusion matrix of benchmark/metrics.py: what every cell holds, and when a count is lost. */
module Confusion {
  import opened Wrappers

  datatype Pair = Pair(truth: string, pred: string)

  type Table = map<string, map<string, nat>>

  // How often a pair really occurs, which is what a cell is meant to hold.
  function Count(pairs: seq<Pair>, truth: string, pred: string): (n: nat) {
    if pairs == [] then 0
    else Count(pairs[..|pairs| - 1], truth, pred) + (if pairs[|pairs| - 1] == Pair(truth, pred) then 1 else 0)
  }

  function Cell(table: Table, truth: string, pred: string): (n: nat) {
    if truth in table && pred in table[truth] then table[truth][pred] else 0
  }

  function ZeroRow(labels: set<string>): (row: map<string, nat>) {
    map p | p in labels :: 0
  }

  function WithRow(table: Table, truth: string, labels: set<string>): (wider: Table)
    ensures truth in wider
  {
    if truth in table then table else table[truth := ZeroRow(labels)]
  }

  // A prediction the row of the new pair does not know yet becomes a column of zeros in every row,
  // whatever that column held in the rows that knew it.
  function WithColumn(table: Table, truth: string, pred: string): (wider: Table)
    requires truth in table
    ensures wider.Keys == table.Keys && pred in wider[truth]
  {
    if pred in table[truth] then table else map t | t in table :: table[t][pred := 0]
  }

  function Tally(table: Table, pair: Pair, labels: set<string>): (tallied: Table) {
    var wide := WithColumn(WithRow(table, pair.truth, labels), pair.truth, pair.pred);
    wide[pair.truth := wide[pair.truth][pair.pred := wide[pair.truth][pair.pred] + 1]]
  }

  function Matrix(pairs: seq<Pair>, labels: set<string>): (table: Table) {
    if pairs == [] then map t | t in labels :: ZeroRow(labels)
    else Tally(Matrix(pairs[..|pairs| - 1], labels), pairs[|pairs| - 1], labels)
  }

  method ConfusionMatrix(pairs: seq<Pair>, labels: set<string>) returns (table: Table)
    ensures table == Matrix(pairs, labels)
  {
    table := map t | t in labels :: ZeroRow(labels);
    for i := 0 to |pairs|
      invariant table == Matrix(pairs[..i], labels)
    {
      assert pairs[..i + 1][..i] == pairs[..i];
      var Pair(truth, pred) := pairs[i];
      if truth !in table {
        table := table[truth := ZeroRow(labels)];
      }
      if pred !in table[truth] {
        table := AddColumn(table, pred);
      }
      table := table[truth := table[truth][pred := table[truth][pred] + 1]];
    }
    assert pairs[..|pairs|] == pairs;
  }

  method AddColumn(table: Table, pred: string) returns (wider: Table)
    ensures wider == map t | t in table :: table[t][pred := 0]
  {
    wider := table;
    var pending := table.Keys;
    while pending != {}
      invariant pending <= table.Keys && wider.Keys == table.Keys
      invariant forall t :: t in table ==> wider[t] == if t in pending then table[t] else table[t][pred := 0]
    {
      var t :| t in pending;
      wider := wider[t := wider[t][pred := 0]];
      pending := pending - {t};
    }
  }

  // ---------------------------------------------------------------- one tally

  // The rows of a table are the labels and the truths seen so far.
  ghost predicate Known(pairs: seq<Pair>, labels: set<string>, truth: string) {
    truth in labels || exists i :: 0 <= i < |pairs| && pairs[i].truth == truth
  }

  // A tally counts its pair, and clears the rest of the column if the row did not know it.
  lemma TallyCells(table: Table, pair: Pair, labels: set<string>, truth: string, pred: string)
    ensures var clears := && pair.pred == pred
                          && !(if pair.truth in table then pred in table[pair.truth] else pred in labels);
            Cell(Tally(table, pair, labels), truth, pred)
            == (if clears then 0 else Cell(table, truth, pred)) + (if pair == Pair(truth, pred) then 1 else 0)
  {}

  lemma {:induction false} RowsAreKnown(pairs: seq<Pair>, labels: set<string>)
    ensures forall t :: t in Matrix(pairs, labels) <==> Known(pairs, labels, t)
    ensures forall t :: t in Matrix(pairs, labels) ==> labels <= Matrix(pairs, labels)[t].Keys
    decreases |pairs|
  {
    if pairs != [] {
      var front, last := pairs[..|pairs| - 1], pairs[|pairs| - 1];
      RowsAreKnown(front, labels);
      forall t ensures t in Matrix(pairs, labels) <==> Known(pairs, labels, t) {
        if Known(pairs, labels, t) && t !in labels && t != last.truth {
          var i :| 0 <= i < |pairs| && pairs[i].truth == t;
          assert front[i].truth == t;
        }
        if i :| 0 <= i < |front| && front[i].truth == t {
          assert pairs[i].truth == t;
        }
      }
    }
  }

  // ---------------------------------------------------------------- what a cell holds

  ghost predicate Used(pairs: seq<Pair>, pred: string) {
    exists i :: 0 <= i < |pairs| && pairs[i].pred == pred
  }

  lemma UsedBefore(pairs: seq<Pair>, pred: string)
    requires pairs != []
    ensures Used(pairs, pred) <==> Used(pairs[..|pairs| - 1], pred) || pairs[|pairs| - 1].pred == pred
  {
    var front := pairs[..|pairs| - 1];
    assert forall i :: 0 <= i < |front| ==> front[i] == pairs[i];
  }

  // The pair that last made the column of a prediction: its row did not know it.
  ghost function Opened(pairs: seq<Pair>, labels: set<string>, pred: string): (at: nat)
    ensures at <= |pairs|
    ensures Used(pairs, pred) && pred !in labels ==> at < |pairs| && pairs[at].pred == pred
    decreases |pairs|, 0
  {
    if pairs == [] then 0
    else
      var front, last := pairs[..|pairs| - 1], pairs[|pairs| - 1];
      UsedBefore(pairs, pred);
      if last.pred == pred && !Knows(front, labels, last.truth, pred) then |front| else Opened(front, labels, pred)
  }

  // The rows that know a prediction: all of them for a label, otherwise those there when its column was last made.
  ghost predicate Knows(pairs: seq<Pair>, labels: set<string>, truth: string, pred: string)
    decreases |pairs|, 1
  {
    pred in labels || (Used(pairs, pred) && Known(pairs[..Opened(pairs, labels, pred) + 1], labels, truth))
  }

  lemma KnownStaysKnown(pairs: seq<Pair>, labels: set<string>, n: nat, truth: string)
    requires n <= |pairs|
    ensures Known(pairs[..n], labels, truth) ==> Known(pairs, labels, truth)
  {
    forall i | 0 <= i < n ensures pairs[..n][i] == pairs[i] {}
  }

  lemma NewRowKnowsLabels(pairs: seq<Pair>, labels: set<string>, truth: string, pred: string)
    requires !Known(pairs, labels, truth)
    ensures Knows(pairs, labels, truth, pred) <==> pred in labels
  {
    if Used(pairs, pred) && pred !in labels {
      KnownStaysKnown(pairs, labels, Opened(pairs, labels, pred) + 1, truth);
    }
  }

  // A pair whose row knows its prediction, or that is about another one, changes nothing about who knows it.
  lemma KnowsAsBefore(pairs: seq<Pair>, labels: set<string>, truth: string, pred: string)
    requires pairs != []
    requires pairs[|pairs| - 1].pred == pred ==> Knows(pairs[..|pairs| - 1], labels, pairs[|pairs| - 1].truth, pred)
    ensures Knows(pairs, labels, truth, pred) <==> Knows(pairs[..|pairs| - 1], labels, truth, pred)
  {
    var front := pairs[..|pairs| - 1];
    UsedBefore(pairs, pred);
    if Used(front, pred) && pred !in labels {
      assert pairs[..Opened(front, labels, pred) + 1] == front[..Opened(front, labels, pred) + 1];
    }
  }

  lemma KnowsOnceOpened(pairs: seq<Pair>, labels: set<string>, truth: string)
    requires pairs != [] && !Knows(pairs[..|pairs| - 1], labels, pairs[|pairs| - 1].truth, pairs[|pairs| - 1].pred)
    ensures Knows(pairs, labels, truth, pairs[|pairs| - 1].pred) <==> Known(pairs, labels, truth)
  {
    UsedBefore(pairs, pairs[|pairs| - 1].pred);
    assert pairs[..|pairs| - 1 + 1] == pairs;
  }

  ghost predicate ColumnsKnown(pairs: seq<Pair>, labels: set<string>) {
    forall t, p :: t in Matrix(pairs, labels) ==> (p in Matrix(pairs, labels)[t] <==> Knows(pairs, labels, t, p))
  }

  // Whether a tally clears its column is whether its row does not know the prediction.
  lemma ClearsIffUnknown(pairs: seq<Pair>, labels: set<string>, pair: Pair)
    requires ColumnsKnown(pairs, labels)
    ensures var table := Matrix(pairs, labels);
            Knows(pairs, labels, pair.truth, pair.pred)
            <==> (if pair.truth in table then pair.pred in table[pair.truth] else pair.pred in labels)
  {
    RowsAreKnown(pairs, labels);
    if pair.truth !in Matrix(pairs, labels) {
      NewRowKnowsLabels(pairs, labels, pair.truth, pair.pred);
    }
  }

  // The predictions a tallied table knows in a row.
  lemma TallyColumns(table: Table, pair: Pair, labels: set<string>, truth: string, pred: string)
    requires truth in Tally(table, pair, labels)
    ensures var unknown := !(if pair.truth in table then pair.pred in table[pair.truth] else pair.pred in labels);
            pred in Tally(table, pair, labels)[truth]
            <==> (if truth in table then pred in table[truth] else pred in labels) || (pred == pair.pred && unknown)
  {}

  lemma {:induction false} RowsKnowTheirColumns(pairs: seq<Pair>, labels: set<string>)
    ensures ColumnsKnown(pairs, labels)
    decreases |pairs|
  {
    hide Tally, Knows, Known;
    if pairs == [] {
      NoPairsKnowLabels(labels);
    } else {
      var front, last := pairs[..|pairs| - 1], pairs[|pairs| - 1];
      RowsKnowTheirColumns(front, labels);
      RowsAreKnown(front, labels);
      RowsAreKnown(pairs, labels);
      ClearsIffUnknown(front, labels, last);
      forall t, p | t in Matrix(pairs, labels) ensures p in Matrix(pairs, labels)[t] <==> Knows(pairs, labels, t, p) {
        TallyColumns(Matrix(front, labels), last, labels, t, p);
        if t !in Matrix(front, labels) {
          NewRowKnowsLabels(front, labels, t, p);
        }
        if last.pred == p && !Knows(front, labels, last.truth, p) {
          KnowsOnceOpened(pairs, labels, t);
        } else {
          KnowsAsBefore(pairs, labels, t, p);
        }
      }
    }
  }

  lemma NoPairsKnowLabels(labels: set<string>)
    ensures ColumnsKnown([], labels)
  {}

  // A column holds the pairs since it was last made.
  lemma {:induction false} CellSinceOpened(pairs: seq<Pair>, labels: set<string>, truth: string, pred: string)
    ensures Cell(Matrix(pairs, labels), truth, pred)
            == Count(pairs, truth, pred)
               - (if pred in labels then 0 else Count(pairs[..Opened(pairs, labels, pred)], truth, pred))
    decreases |pairs|
  {
    if pairs != [] {
      hide Tally, Known, ColumnsKnown;
      var front, last := pairs[..|pairs| - 1], pairs[|pairs| - 1];
      CellSinceOpened(front, labels, truth, pred);
      RowsKnowTheirColumns(front, labels);
      ClearsIffUnknown(front, labels, last);
      TallyCells(Matrix(front, labels), last, labels, truth, pred);
      if last.pred == pred && !Knows(front, labels, last.truth, pred) {
        assert pairs[..|front|] == front;
      } else {
        assert pairs[..Opened(front, labels, pred)] == front[..Opened(front, labels, pred)];
      }
    }
  }

  // Whether a pair is still counted at the end: its column was not made again after it.
  ghost predicate Counted(pairs: seq<Pair>, labels: set<string>, i: int)
    requires 0 <= i < |pairs|
  {
    pairs[i].pred in labels || Opened(pairs, labels, pairs[i].pred) <= i
  }

  ghost function CountedAs(pairs: seq<Pair>, labels: set<string>, truth: string, pred: string, n: nat): (count: nat)
    requires n <= |pairs|
  {
    if n == 0 then 0
    else CountedAs(pairs, labels, truth, pred, n - 1)
         + (if pairs[n - 1] == Pair(truth, pred) && Counted(pairs, labels, n - 1) then 1 else 0)
  }

  lemma {:induction false} CountedSinceOpened(pairs: seq<Pair>, labels: set<string>, truth: string, pred: string,
                                              n: nat)
    requires n <= |pairs|
    ensures var at := Opened(pairs, labels, pred);
            CountedAs(pairs, labels, truth, pred, n)
            == Count(pairs[..n], truth, pred)
               - (if pred in labels then 0 else Count(pairs[..if n < at then n else at], truth, pred))
    decreases n
  {
    if n > 0 {
      CountedSinceOpened(pairs, labels, truth, pred, n - 1);
      assert pairs[..n][..n - 1] == pairs[..n - 1];
    }
  }

  /** What every cell holds, for every input: the number of its pairs that are still counted. */
  lemma CellHoldsTheCounted(pairs: seq<Pair>, labels: set<string>, truth: string, pred: string)
    ensures Cell(Matrix(pairs, labels), truth, pred) == CountedAs(pairs, labels, truth, pred, |pairs|)
  {
    hide Matrix, Count, Opened;
    CellSinceOpened(pairs, labels, truth, pred);
    CountedSinceOpened(pairs, labels, truth, pred, |pairs|);
    assert pairs[..|pairs|] == pairs;
  }

  // ---------------------------------------------------------------- when a count is lost

  // Pair j repeats the prediction of pair i, no label, under a truth that was unknown when i was tallied.
  ghost predicate Clash(pairs: seq<Pair>, labels: set<string>, i: int, j: int) {
    && 0 <= i < j < |pairs| && pairs[i].pred == pairs[j].pred && pairs[i].pred !in labels
    && !Known(pairs[..i + 1], labels, pairs[j].truth)
  }

  ghost predicate Loses(pairs: seq<Pair>, labels: set<string>) {
    exists i, j :: Clash(pairs, labels, i, j)
  }

  ghost predicate Exact(pairs: seq<Pair>, labels: set<string>) {
    forall t, p :: Cell(Matrix(pairs, labels), t, p) == Count(pairs, t, p)
  }

  lemma {:induction false} UnusedCountsZero(pairs: seq<Pair>, truth: string, pred: string)
    requires !Used(pairs, pred)
    ensures Count(pairs, truth, pred) == 0
    decreases |pairs|
  {
    if pairs != [] {
      UsedBefore(pairs, pred);
      UnusedCountsZero(pairs[..|pairs| - 1], truth, pred);
    }
  }

  lemma {:induction false} OccursSoCounts(pairs: seq<Pair>, i: nat)
    requires i < |pairs|
    ensures Count(pairs, pairs[i].truth, pairs[i].pred) > 0
    decreases |pairs|
  {
    if i < |pairs| - 1 {
      OccursSoCounts(pairs[..|pairs| - 1], i);
    }
  }

  // The matrix is exact when every pair is still counted.
  lemma ExactIffAllCounted(pairs: seq<Pair>, labels: set<string>)
    ensures Exact(pairs, labels) <==> forall i :: 0 <= i < |pairs| ==> Counted(pairs, labels, i)
  {
    hide Matrix, Opened;
    forall t, p ensures (forall i :: 0 <= i < |pairs| ==> Counted(pairs, labels, i)) ==>
                          Cell(Matrix(pairs, labels), t, p) == Count(pairs, t, p)
    {
      CellSinceOpened(pairs, labels, t, p);
      var before := pairs[..Opened(pairs, labels, p)];
      if p !in labels && Used(before, p) {
        var i :| 0 <= i < |before| && before[i].pred == p;
        assert before[i] == pairs[i] && !Counted(pairs, labels, i);
      } else if p !in labels {
        UnusedCountsZero(before, t, p);
      }
    }
    forall i | 0 <= i < |pairs| && !Counted(pairs, labels, i)
      ensures Cell(Matrix(pairs, labels), pairs[i].truth, pairs[i].pred) < Count(pairs, pairs[i].truth, pairs[i].pred)
    {
      CellSinceOpened(pairs, labels, pairs[i].truth, pairs[i].pred);
      OccursSoCounts(pairs[..Opened(pairs, labels, pairs[i].pred)], i);
    }
  }

  // Columns are made later and later.
  lemma {:induction false} OpenedLater(pairs: seq<Pair>, labels: set<string>, pred: string, n: nat)
    requires n <= |pairs|
    ensures Opened(pairs[..n], labels, pred) <= Opened(pairs, labels, pred)
    decreases |pairs|
  {
    if n == |pairs| {
      assert pairs[..n] == pairs;
    } else {
      assert pairs[..|pairs| - 1][..n] == pairs[..n];
      OpenedLater(pairs[..|pairs| - 1], labels, pred, n);
    }
  }

  // The pair that made a column over an earlier use of it clashes with one.
  lemma {:induction false} OpeningClashes(pairs: seq<Pair>, labels: set<string>, i: nat)
    requires i < |pairs| && !Counted(pairs, labels, i)
    ensures Loses(pairs, labels)
    decreases |pairs|
  {
    var front, last, p := pairs[..|pairs| - 1], pairs[|pairs| - 1], pairs[i].pred;
    assert front[i] == pairs[i];
    if last.pred == p && !Knows(front, labels, last.truth, p) {
      var z := Opened(front, labels, p);
      assert front[..z + 1] == pairs[..z + 1] && front[z] == pairs[z];
      assert Clash(pairs, labels, z, |pairs| - 1);
    } else {
      OpeningClashes(front, labels, i);
      var a, b :| Clash(front, labels, a, b);
      assert front[..a + 1] == pairs[..a + 1];
      assert Clash(pairs, labels, a, b);
    }
  }

  // A clash with a pair since the column was last made finds a row that does not know it.
  lemma ClashOpens(pairs: seq<Pair>, labels: set<string>, i: nat, j: nat)
    requires Clash(pairs, labels, i, j) && Opened(pairs[..j], labels, pairs[i].pred) <= i
    ensures Opened(pairs[..j + 1], labels, pairs[i].pred) == j
  {
    hide Known;
    var before, at, truth := pairs[..j], Opened(pairs[..j], labels, pairs[i].pred), pairs[j].truth;
    assert before[..at + 1] == pairs[..i + 1][..at + 1];
    KnownStaysKnown(pairs[..i + 1], labels, at + 1, truth);
    assert !Knows(before, labels, truth, pairs[i].pred);
    assert pairs[..j + 1][..j] == before && pairs[..j + 1][j] == pairs[j];
  }

  // Of two pairs that clash the first is not counted any more.
  lemma ClashIsNotCounted(pairs: seq<Pair>, labels: set<string>, i: nat, j: nat)
    requires Clash(pairs, labels, i, j)
    ensures !Counted(pairs, labels, i)
  {
    hide Known, Opened;
    if Opened(pairs[..j], labels, pairs[i].pred) <= i {
      ClashOpens(pairs, labels, i, j);
      OpenedLater(pairs, labels, pairs[i].pred, j + 1);
    } else {
      OpenedLater(pairs, labels, pairs[i].pred, j);
    }
  }

  lemma AllCountedIffNothingClashes(pairs: seq<Pair>, labels: set<string>)
    ensures (forall i :: 0 <= i < |pairs| ==> Counted(pairs, labels, i)) <==> !Loses(pairs, labels)
  {
    hide Counted;
    if i :| 0 <= i < |pairs| && !Counted(pairs, labels, i) {
      OpeningClashes(pairs, labels, i);
    }
    if i, j :| Clash(pairs, labels, i, j) {
      ClashIsNotCounted(pairs, labels, i, j);
    }
  }

  // A cell never holds more than it should.
  lemma {:induction false} NeverOvercounts(pairs: seq<Pair>, labels: set<string>, truth: string, pred: string)
    ensures Cell(Matrix(pairs, labels), truth, pred) <= Count(pairs, truth, pred)
    decreases |pairs|
  {
    if pairs != [] {
      NeverOvercounts(pairs[..|pairs| - 1], labels, truth, pred);
      TallyCells(Matrix(pairs[..|pairs| - 1], labels), pairs[|pairs| - 1], labels, truth, pred);
    }
  }

  /** Every cell of the matrix is the number of its pairs exactly when no pair repeats an unlisted
      prediction under a truth that is unlisted too and was unknown at the earlier pair. */
  lemma ExactIffNothingClashes(pairs: seq<Pair>, labels: set<string>)
    ensures Exact(pairs, labels) <==> !Loses(pairs, labels)
  {
    hide Exact, Loses, Counted;
    ExactIffAllCounted(pairs, labels);
    AllCountedIffNothingClashes(pairs, labels);
  }

  /** In particular when all truths, or all predictions, are listed labels. */
  lemma ListedPairsAreExact(pairs: seq<Pair>, labels: set<string>)
    requires (forall i :: 0 <= i < |pairs| ==> pairs[i].truth in labels)
             || (forall i :: 0 <= i < |pairs| ==> pairs[i].pred in labels)
    ensures Exact(pairs, labels)
  {
    ExactIffNothingClashes(pairs, labels);
  }

  /** Two pairs are enough to lose one. */
  lemma TwoPairsLoseACount(labels: set<string>)
    requires "a" !in labels && "b" !in labels && "x" !in labels
    ensures Cell(Matrix([Pair("a", "x"), Pair("b", "x")], labels), "a", "x") == 0
    ensures Count([Pair("a", "x"), Pair("b", "x")], "a", "x") == 1
  {
    var pairs := [Pair("a", "x"), Pair("b", "x")];
    assert pairs[..1] == [Pair("a", "x")] && pairs[..1][..0] == [];
    RowsAreKnown(pairs[..1], labels);
    TallyCells(Matrix(pairs[..1], labels), pairs[1], labels, "a", "x");
    assert Known(pairs[..1], labels, "b") ==> false;
  }
}
