/** Which candidates go through the expensive stages: select_kept_ids of
    src/searcher/campaigns/orchestrator.py. */
module Shortlist {
  // The non-empty ids, each where it first occurs.
  function Firsts(ids: seq<string>): (firsts: seq<string>) {
    if ids == [] then []
    else
      var front := Firsts(ids[..|ids| - 1]);
      var id := ids[|ids| - 1];
      if id == "" || id in front then front else front + [id]
  }

  function Least(a: int, b: int): (least: int) {
    if a <= b then a else b
  }

  /** The cap is checked after an id is taken, so the first id is kept even under a cap below one. */
  method SelectKeptIds(ranked: seq<string>, discovered: seq<string>, cap: int) returns (kept: seq<string>)
    ensures kept == Firsts(ranked + discovered)[..Least(if cap < 1 then 1 else cap, |Firsts(ranked + discovered)|)]
  {
    var ids := ranked + discovered;
    kept := [];
    var seen: set<string> := {};
    for i := 0 to |ids|
      invariant kept == Firsts(ids[..i]) && seen == set id | id in kept
      invariant kept == [] || |kept| < cap
    {
      assert ids[..i + 1][..i] == ids[..i];
      if ids[i] == "" || ids[i] in seen {
        continue;
      }
      kept := kept + [ids[i]];
      seen := seen + {ids[i]};
      if |kept| >= cap {
        assert kept == Firsts(ids[..i + 1]);
        FirstsGrow(ids, i + 1);
        return;
      }
    }
    assert ids[..|ids|] == ids;
  }

  // Reading on only adds at the end.
  lemma {:induction false} FirstsGrow(ids: seq<string>, n: nat)
    requires n <= |ids|
    ensures Firsts(ids[..n]) <= Firsts(ids)
    decreases |ids|
  {
    if n == |ids| {
      assert ids[..n] == ids;
    } else {
      FirstsGrow(ids[..|ids| - 1], n);
      assert ids[..|ids| - 1][..n] == ids[..n];
    }
  }

  lemma {:induction false} FirstsAreTheIds(ids: seq<string>)
    ensures forall id :: id in Firsts(ids) <==> id in ids && id != ""
    ensures forall i, j :: 0 <= i < j < |Firsts(ids)| ==> Firsts(ids)[i] != Firsts(ids)[j]
    decreases |ids|
  {
    if ids != [] {
      FirstsAreTheIds(ids[..|ids| - 1]);
      assert ids == ids[..|ids| - 1] + [ids[|ids| - 1]];
    }
  }

  /** The ranked ids come first and in their order, nothing is kept twice, nothing is left out while
      there is room, and the cap is kept by every cap of at least one and by no other unless there is
      no id at all. */
  lemma KeepsTheBest(ranked: seq<string>, discovered: seq<string>, cap: int, kept: seq<string>)
    requires kept == Firsts(ranked + discovered)[..Least(if cap < 1 then 1 else cap, |Firsts(ranked + discovered)|)]
    ensures Firsts(ranked) <= kept || kept <= Firsts(ranked)
    ensures forall i, j :: 0 <= i < j < |kept| ==> kept[i] != kept[j]
    ensures |kept| < cap ==> forall id :: id in ranked + discovered && id != "" ==> id in kept
    ensures |kept| <= cap <==> cap >= 1 || (cap == 0 && Firsts(ranked + discovered) == [])
  {
    hide Firsts;
    var ids := ranked + discovered;
    FirstsAreTheIds(ids);
    FirstsGrow(ids, |ranked|);
    assert ids[..|ranked|] == ranked;
    PrefixesCompare(Firsts(ranked), Firsts(ids), |kept|);
  }

  lemma PrefixesCompare(a: seq<string>, b: seq<string>, n: nat)
    requires a <= b && n <= |b|
    ensures a <= b[..n] || b[..n] <= a
  {
    if |a| <= n {
      assert a == b[..n][..|a|];
    } else {
      assert b[..n] == a[..n];
    }
  }
}
