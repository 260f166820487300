/** The split authority of benchmark/splits.py: whole render groups go to one side, and two guards
    refuse an assignment that leaks identifiers or pixels. */
module Splits {
  import opened RenderGroups

  // ---------------------------------------------------------------- groups

  // The group of a case: every listed case some chain of shared digests connects it to.
  ghost function GroupOf(ids: set<CaseId>, renders: CaseId -> seq<Digest>, x: CaseId): (group: set<CaseId>) {
    set y | y in ids && Connected(ids, renders, x, y)
  }

  ghost predicate Partition(ids: set<CaseId>, groups: seq<set<CaseId>>) {
    && (forall g :: g in groups ==> g != {} && g <= ids)
    && (forall x :: x in ids ==> exists i :: 0 <= i < |groups| && x in groups[i])
    && (forall i, j :: 0 <= i < j < |groups| ==> groups[i] !! groups[j])
  }

  // grouped.setdefault(root, set()).add(case_id); `order` is the dict's key order.
  method GroupByRoot(ids: seq<CaseId>, roots: map<CaseId, CaseId>)
    returns (order: seq<CaseId>, grouped: map<CaseId, set<CaseId>>)
    requires forall x :: x in ids ==> x in roots
    ensures forall r :: r in order <==> r in grouped
    ensures forall i, j :: 0 <= i < j < |order| ==> order[i] != order[j]
    ensures grouped.Keys == set x | x in ids :: roots[x]
    ensures forall r :: r in grouped ==> grouped[r] == set x | x in ids && roots[x] == r
  {
    order, grouped := [], map[];
    for i := 0 to |ids|
      invariant forall r :: r in order <==> r in grouped
      invariant forall i, j :: 0 <= i < j < |order| ==> order[i] != order[j]
      invariant grouped.Keys == set x | x in ids[..i] :: roots[x]
      invariant forall r :: r in grouped ==> grouped[r] == set x | x in ids[..i] && roots[x] == r
    {
      var x := ids[i];
      var root := roots[x];
      assert ids[..i + 1] == ids[..i] + [x];
      var group := if root in grouped then grouped[root] else {};
      if root !in grouped {
        order := order + [root];
      }
      grouped := grouped[root := group + {x}];
    }
    assert ids[..|ids|] == ids;
  }

  /** render_groups: the connected components of shared image digests, each listed once. */
  method ComputeRenderGroups(ids: seq<CaseId>, renders: CaseId -> seq<Digest>) returns (groups: seq<set<CaseId>>)
    ensures Partition(Cases(ids), groups)
    ensures forall g, x :: g in groups && x in g ==> g == GroupOf(Cases(ids), renders, x)
  {
    var roots := UnionFind(ids, renders);
    var order, grouped := GroupByRoot(ids, roots);
    groups := [];
    for i := 0 to |order|
      invariant |groups| == i && forall k :: 0 <= k < i ==> groups[k] == grouped[order[k]]
    {
      assert order[i] in order;
      groups := groups + [grouped[order[i]]];
    }
    GroupsAreComponents(ids, renders, roots, order, grouped, groups);
  }

  lemma GroupsAreComponents(ids: seq<CaseId>, renders: CaseId -> seq<Digest>, roots: map<CaseId, CaseId>,
                            order: seq<CaseId>, grouped: map<CaseId, set<CaseId>>, groups: seq<set<CaseId>>)
    requires DecidesConnection(Cases(ids), renders, roots)
    requires forall r :: r in order <==> r in grouped
    requires forall i, j :: 0 <= i < j < |order| ==> order[i] != order[j]
    requires grouped.Keys == set x | x in ids :: roots[x]
    requires forall r :: r in grouped ==> grouped[r] == set x | x in ids && roots[x] == r
    requires |groups| == |order|
             && forall k :: 0 <= k < |order| ==> order[k] in grouped && groups[k] == grouped[order[k]]
    ensures Partition(Cases(ids), groups)
    ensures forall g, x :: g in groups && x in g ==> g == GroupOf(Cases(ids), renders, x)
  {
    forall x | x in Cases(ids) ensures exists i :: 0 <= i < |groups| && x in groups[i] {
      assert roots[x] in order;
      var i :| 0 <= i < |order| && order[i] == roots[x];
      assert x in groups[i];
    }
    forall g | g in groups ensures g != {} && g <= Cases(ids) {
      var i :| 0 <= i < |groups| && groups[i] == g;
      var x :| x in ids && roots[x] == order[i];
      assert x in g;
    }
    forall g, x | g in groups && x in g ensures g == GroupOf(Cases(ids), renders, x) {
      var i :| 0 <= i < |groups| && groups[i] == g;
      assert roots[x] == order[i];
    }
  }

  // ---------------------------------------------------------------- the held-out side

  // A case is held out exactly when some listed seed is connected to it.
  ghost function HeldOut(ids: set<CaseId>, renders: CaseId -> seq<Digest>, seeds: set<CaseId>): (held: set<CaseId>) {
    set c | c in ids && exists s :: s in seeds && s in ids && Connected(ids, renders, s, c)
  }

  /** _held_out_from_render_groups: pull in the whole group of every seed, and nothing else. */
  method HeldOutFromRenderGroups(ids: seq<CaseId>, renders: CaseId -> seq<Digest>, seeds: set<CaseId>)
    returns (held: set<CaseId>)
    ensures held == HeldOut(Cases(ids), renders, seeds)
  {
    hide Partition, GroupOf, HeldOut, Cases;
    var groups := ComputeRenderGroups(ids, renders);
    held := {};
    for i := 0 to |groups|
      invariant forall c :: c in held <==> exists k :: 0 <= k < i && c in groups[k] && groups[k] * seeds != {}
    {
      if groups[i] * seeds != {} {
        held := held + groups[i];
      }
    }
    HeldByGroups(Cases(ids), renders, seeds, groups, held);
  }

  lemma HeldByGroups(ids: set<CaseId>, renders: CaseId -> seq<Digest>, seeds: set<CaseId>,
                     groups: seq<set<CaseId>>, held: set<CaseId>)
    requires Partition(ids, groups) && forall g, x :: g in groups && x in g ==> g == GroupOf(ids, renders, x)
    requires forall c :: c in held <==> exists k :: 0 <= k < |groups| && c in groups[k] && groups[k] * seeds != {}
    ensures held == HeldOut(ids, renders, seeds)
  {
    forall c ensures c in held <==> c in HeldOut(ids, renders, seeds) {
      HeldByGroupIsHeldBySeed(ids, renders, seeds, groups, c);
    }
  }

  lemma HeldByGroupIsHeldBySeed(ids: set<CaseId>, renders: CaseId -> seq<Digest>, seeds: set<CaseId>,
                                groups: seq<set<CaseId>>, c: CaseId)
    requires Partition(ids, groups) && forall g, x :: g in groups && x in g ==> g == GroupOf(ids, renders, x)
    ensures (exists k :: 0 <= k < |groups| && c in groups[k] && groups[k] * seeds != {})
            <==> c in HeldOut(ids, renders, seeds)
  {
    if k :| 0 <= k < |groups| && c in groups[k] && groups[k] * seeds != {} {
      var s :| s in groups[k] * seeds;
      assert groups[k] in groups && groups[k] == GroupOf(ids, renders, s);
    }
    if c in HeldOut(ids, renders, seeds) {
      var s :| s in seeds && s in ids && Connected(ids, renders, s, c);
      var k :| 0 <= k < |groups| && s in groups[k];
      assert groups[k] in groups && groups[k] == GroupOf(ids, renders, s);
      assert s in groups[k] * seeds;
    }
  }

  /** The held-out side is a union of whole groups: it takes or leaves any two connected cases together. */
  lemma HeldOutIsWholeGroups(ids: set<CaseId>, renders: CaseId -> seq<Digest>, seeds: set<CaseId>, x: CaseId, y: CaseId)
    requires x in ids && y in ids && Connected(ids, renders, x, y)
    ensures x in HeldOut(ids, renders, seeds) <==> y in HeldOut(ids, renders, seeds)
    ensures x in seeds ==> y in HeldOut(ids, renders, seeds)
  {
    ConnectedSymmetric(ids, renders, x, y);
    if x in HeldOut(ids, renders, seeds) {
      var s :| s in seeds && s in ids && Connected(ids, renders, s, x);
      ConnectedTransitive(ids, renders, s, x, y);
    }
    if y in HeldOut(ids, renders, seeds) {
      var s :| s in seeds && s in ids && Connected(ids, renders, s, y);
      ConnectedTransitive(ids, renders, s, y, x);
    }
  }

  // ---------------------------------------------------------------- the pixel guard

  datatype PixelCheck = Clean | Degenerate(calibration: nat, heldOut: nat) | Shared(digests: set<Digest>)

  // The digests of a case's images, hashed by `sha`.
  function DigestsOf<Image>(images: seq<Image>, sha: Image -> Digest): (digests: set<Digest>) {
    set i | 0 <= i < |images| :: sha(images[i])
  }

  // Digests carried by a calibration case and by a held-out case that is not also calibration.
  ghost function CrossingDigests<Image>(images: map<CaseId, seq<Image>>, sha: Image -> Digest, cal: set<CaseId>,
                                        held: set<CaseId>): (crossing: set<Digest>)
  {
    set a, b, d | a in images && b in images && a in cal && b in held && b !in cal
                  && d in DigestsOf(images[a], sha) && d in DigestsOf(images[b], sha) :: d
  }

  ghost predicate Shows<Image>(images: map<CaseId, seq<Image>>, sha: Image -> Digest, c: CaseId, d: Digest) {
    c in images && exists i :: 0 <= i < |images[c]| && sha(images[c][i]) == d
  }

  /** A digest crosses exactly if a calibration case and a held-out case show an image with it. */
  lemma CrossesIffShown<Image>(images: map<CaseId, seq<Image>>, sha: Image -> Digest, cal: set<CaseId>,
                               held: set<CaseId>, d: Digest)
    ensures d in CrossingDigests(images, sha, cal, held)
            <==> && (exists a :: a in cal && Shows(images, sha, a, d))
                 && (exists b :: b in held - cal && Shows(images, sha, b, d))
  {
    forall c ensures Shows(images, sha, c, d) <==> c in images && d in DigestsOf(images[c], sha) {}
  }

  datatype Side = Calibration | HeldOutSide | Hidden

  // digests.setdefault(sha256(png), set()).add(side) for one case
  method AddSide<Image>(digests: map<Digest, set<Side>>, images: seq<Image>, sha: Image -> Digest, side: Side)
    returns (r: map<Digest, set<Side>>)
    ensures r.Keys == digests.Keys + DigestsOf(images, sha)
    ensures forall d :: d in r ==> r[d] == (if d in digests then digests[d] else {})
                                         + (if d in DigestsOf(images, sha) then {side} else {})
  {
    r := digests;
    for i := 0 to |images|
      invariant r.Keys == digests.Keys + DigestsOf(images[..i], sha)
      invariant forall d :: d in r ==> r[d] == (if d in digests then digests[d] else {})
                                             + (if d in DigestsOf(images[..i], sha) then {side} else {})
    {
      var d := sha(images[i]);
      assert DigestsOf(images[..i + 1], sha) == DigestsOf(images[..i], sha) + {d} by {
        assert images[..i + 1] == images[..i] + [images[i]];
        assert images[..i + 1][i] == images[i];
        assert forall k :: 0 <= k < i ==> images[..i + 1][k] == images[..i][k];
      }
      r := r[d := (if d in r then r[d] else {}) + {side}];
    }
    assert images[..|images|] == images;
  }

  ghost predicate Carried<Image>(images: map<CaseId, seq<Image>>, sha: Image -> Digest, done: set<CaseId>,
                                 side: set<CaseId>, d: Digest)
  {
    exists c :: c in done && c in side && c in images && d in DigestsOf(images[c], sha)
  }

  lemma NothingCarried<Image>(images: map<CaseId, seq<Image>>, sha: Image -> Digest, side: set<CaseId>)
    ensures forall d :: !Carried(images, sha, {}, side, d)
  {}

  lemma CrossingIsCarried<Image>(images: map<CaseId, seq<Image>>, sha: Image -> Digest, cal: set<CaseId>,
                                 held: set<CaseId>, shared: set<Digest>)
    requires forall d :: d in shared <==> Carried(images, sha, images.Keys, cal, d)
                                          && Carried(images, sha, images.Keys, held - cal, d)
    ensures shared == CrossingDigests(images, sha, cal, held)
  {}

  /** assert_no_pixel_leakage: refuses an empty side, and otherwise reports exactly the digests
      that cross from calibration to held-out. */
  method AssertNoPixelLeakage<Image>(images: map<CaseId, seq<Image>>, sha: Image -> Digest, cal: set<CaseId>,
                                     held: set<CaseId>)
    returns (r: PixelCheck)
    ensures r.Degenerate? <==> cal == {} || held == {}
    ensures r.Degenerate? ==> r == Degenerate(|cal|, |held|)
    ensures !r.Degenerate? ==> r == (if CrossingDigests(images, sha, cal, held) == {} then Clean
                                     else Shared(CrossingDigests(images, sha, cal, held)))
  {
    hide Carried, DigestsOf, CrossingDigests;
    if cal == {} || held == {} {
      return Degenerate(|cal|, |held|);
    }
    NothingCarried(images, sha, cal);
    NothingCarried(images, sha, held - cal);
    var digests: map<Digest, set<Side>> := map[];
    var rest := images.Keys;
    ghost var done: set<CaseId> := {};
    while rest != {}
      invariant done + rest == images.Keys && done !! rest
      invariant forall d :: d in digests ==> (Calibration in digests[d] <==> Carried(images, sha, done, cal, d))
      invariant forall d :: d in digests ==> (HeldOutSide in digests[d] <==> Carried(images, sha, done, held - cal, d))
      invariant forall d :: d in digests ==> digests[d] <= {Calibration, HeldOutSide}
      invariant forall d :: Carried(images, sha, done, cal, d) || Carried(images, sha, done, held - cal, d) ==>
                  d in digests
    {
      var c :| c in rest;
      rest := rest - {c};
      ghost var before := digests;
      if c in cal {
        digests := AddSide(digests, images[c], sha, Calibration);
      } else if c in held {
        digests := AddSide(digests, images[c], sha, HeldOutSide);
      }
      CarriedOneMore(images, sha, done, c, cal);
      CarriedOneMore(images, sha, done, c, held - cal);
      done := done + {c};
    }
    var shared := set d | d in digests && Calibration in digests[d] && HeldOutSide in digests[d];
    forall d
      ensures d in shared
              <==> Carried(images, sha, images.Keys, cal, d) && Carried(images, sha, images.Keys, held - cal, d)
    {
      assert done == images.Keys;
      if Carried(images, sha, done, cal, d) && Carried(images, sha, done, held - cal, d) {
        assert d in digests;
      }
    }
    CrossingIsCarried(images, sha, cal, held, shared);
    r := if shared == {} then Clean else Shared(shared);
  }

  lemma CarriedOneMore<Image>(images: map<CaseId, seq<Image>>, sha: Image -> Digest, done: set<CaseId>, c: CaseId,
                              side: set<CaseId>)
    requires c in images
    ensures forall d :: Carried(images, sha, done + {c}, side, d)
                        <==> Carried(images, sha, done, side, d) || (c in side && d in DigestsOf(images[c], sha))
  {
    forall d | Carried(images, sha, done, side, d) || (c in side && d in DigestsOf(images[c], sha))
      ensures Carried(images, sha, done + {c}, side, d)
    {
      if Carried(images, sha, done, side, d) {
        var e :| e in done && e in side && e in images && d in DigestsOf(images[e], sha);
        assert e in done + {c};
      } else {
        assert c in done + {c};
      }
    }
  }

  /** The module's purpose: with images whose digests are the renders that were grouped, no digest
      ever crosses the assignment, whatever the corpus and the seeds. */
  lemma NoPixelLeakByConstruction<Image>(ids: set<CaseId>, renders: CaseId -> seq<Digest>, seeds: set<CaseId>,
                                         images: map<CaseId, seq<Image>>, sha: Image -> Digest)
    requires forall c :: c in ids && c in images ==> forall d :: d in DigestsOf(images[c], sha) ==> d in renders(c)
    ensures CrossingDigests(images, sha, ids - HeldOut(ids, renders, seeds), HeldOut(ids, renders, seeds)) == {}
  {
    var held := HeldOut(ids, renders, seeds);
    if d :| d in CrossingDigests(images, sha, ids - held, held) {
      var a, b :| a in images && b in images && a in ids - held && b in held && b !in ids - held
                  && d in DigestsOf(images[a], sha) && d in DigestsOf(images[b], sha);
      assert d in renders(a) && d in renders(b);
      ConnectedOnce(ids, renders, b, a);
      HeldOutIsWholeGroups(ids, renders, seeds, b, a);
    }
  }

  // ---------------------------------------------------------------- the identifier guard

  datatype LeakError = EmptySplits(names: seq<Side>) | Overlap(sides: map<string, seq<Side>>)
  datatype LeakCheck = NoLeak | Leak(error: LeakError)

  // Every identifier with the side that lists it, in the order the guard visits them.
  function Tagged(side: Side, ids: seq<string>): (r: seq<(string, Side)>)
    ensures |r| == |ids| && forall i :: 0 <= i < |ids| ==> r[i] == (ids[i], side)
  {
    seq(|ids|, i requires 0 <= i < |ids| => (ids[i], side))
  }

  // The sides that list an identifier, one entry per listing.
  function SidesOf(rows: seq<(string, Side)>, id: string): (sides: seq<Side>) {
    if rows == [] then []
    else SidesOf(rows[..|rows| - 1], id) + (if rows[|rows| - 1].0 == id then [rows[|rows| - 1].1] else [])
  }

  lemma {:induction false} SidesOfListed(rows: seq<(string, Side)>, id: string)
    ensures SidesOf(rows, id) != [] <==> exists i :: 0 <= i < |rows| && rows[i].0 == id
  {
    if rows != [] {
      SidesOfListed(rows[..|rows| - 1], id);
    }
  }

  ghost predicate ListedOnce(rows: seq<(string, Side)>) {
    forall i, j :: 0 <= i < j < |rows| ==> rows[i].0 != rows[j].0
  }

  ghost predicate NoOverlap(rows: seq<(string, Side)>) {
    forall id :: |SidesOf(rows, id)| <= 1
  }

  lemma {:induction false} ListedOnceIffNoOverlap(rows: seq<(string, Side)>)
    ensures ListedOnce(rows) <==> NoOverlap(rows)
  {
    if rows != [] {
      var front, last := rows[..|rows| - 1], rows[|rows| - 1];
      ListedOnceIffNoOverlap(front);
      SidesOfListed(front, last.0);
      assert SidesOf(rows, last.0) == SidesOf(front, last.0) + [last.1];
      assert forall id :: id != last.0 ==> SidesOf(rows, id) == SidesOf(front, id) + [];
      if NoOverlap(rows) {
        assert |SidesOf(rows, last.0)| <= 1;
        assert NoOverlap(front);
      }
      if ListedOnce(rows) {
        assert SidesOf(front, last.0) == [];
      }
    }
  }

  // What the guard's two dicts hold after visiting `rows`.
  ghost predicate Recorded(rows: seq<(string, Side)>, seen: map<string, Side>, overlap: map<string, seq<Side>>,
                           id: string) {
    var sides := SidesOf(rows, id);
    && (id in seen <==> sides != []) && (id in seen ==> sides != [] && seen[id] == sides[0])
    && (id in overlap <==> |sides| > 1) && (id in overlap ==> overlap[id] == sides)
  }

  method CollectOverlap(rows: seq<(string, Side)>) returns (overlap: map<string, seq<Side>>)
    ensures forall id :: id in overlap <==> |SidesOf(rows, id)| > 1
    ensures forall id :: id in overlap ==> overlap[id] == SidesOf(rows, id)
  {
    var seen: map<string, Side> := map[];
    overlap := map[];
    for i := 0 to |rows|
      invariant forall id :: Recorded(rows[..i], seen, overlap, id)
    {
      var id, name := rows[i].0, rows[i].1;
      assert rows[..i + 1][..i] == rows[..i];
      assert Recorded(rows[..i], seen, overlap, id);
      ghost var seenBefore, overlapBefore := seen, overlap;
      if id !in seen {
        seen := seen[id := name];
      } else {
        overlap := overlap[id := (if id in overlap then overlap[id] else [seen[id]]) + [name]];
      }
      ghost var visited := rows[..i + 1];
      forall other ensures Recorded(visited, seen, overlap, other) {
        assert Recorded(rows[..i], seenBefore, overlapBefore, other);
      }
    }
    assert rows[..|rows|] == rows;
    forall id
      ensures (id in overlap <==> |SidesOf(rows, id)| > 1) && (id in overlap ==> overlap[id] == SidesOf(rows, id))
    {
      assert Recorded(rows, seen, overlap, id);
    }
  }

  function Listings(calibration: seq<string>, heldOut: seq<string>, hidden: seq<string>): (rows: seq<(string, Side)>) {
    Tagged(Calibration, calibration) + Tagged(HeldOutSide, heldOut) + Tagged(Hidden, hidden)
  }

  function Copies(side: Side, n: nat): (copies: seq<Side>) {
    seq(n, i => side)
  }

  lemma {:induction false} SidesOfBoth(rows: seq<(string, Side)>, more: seq<(string, Side)>, id: string)
    ensures SidesOf(rows + more, id) == SidesOf(rows, id) + SidesOf(more, id)
    decreases |more|
  {
    if more == [] {
      assert rows + more == rows;
    } else {
      SidesOfBoth(rows, more[..|more| - 1], id);
      assert (rows + more)[..|rows + more| - 1] == rows + more[..|more| - 1];
    }
  }

  lemma {:induction false} SidesOfTagged(side: Side, ids: seq<string>, id: string)
    ensures SidesOf(Tagged(side, ids), id) == Copies(side, multiset(ids)[id])
    decreases |ids|
  {
    if ids != [] {
      var front, last := ids[..|ids| - 1], ids[|ids| - 1];
      SidesOfTagged(side, front, id);
      assert ids == front + [last];
      assert Tagged(side, ids)[..|ids| - 1] == Tagged(side, front);
    }
  }

  /** What the guard reports for an identifier is every listing of it: those of calibration, of the held-out side and
      of the hidden side, as many of each as there are. */
  lemma SidesAreTheListings(calibration: seq<string>, heldOut: seq<string>, hidden: seq<string>, id: string)
    ensures SidesOf(Listings(calibration, heldOut, hidden), id)
            == Copies(Calibration, multiset(calibration)[id]) + Copies(HeldOutSide, multiset(heldOut)[id])
               + Copies(Hidden, multiset(hidden)[id])
  {
    SidesOfBoth(Tagged(Calibration, calibration) + Tagged(HeldOutSide, heldOut), Tagged(Hidden, hidden), id);
    SidesOfBoth(Tagged(Calibration, calibration), Tagged(HeldOutSide, heldOut), id);
    SidesOfTagged(Calibration, calibration, id);
    SidesOfTagged(HeldOutSide, heldOut, id);
    SidesOfTagged(Hidden, hidden, id);
  }

  /** assert_no_leakage: it passes exactly when both reporting sides are listed and no identifier is
      listed twice anywhere, and otherwise names every repeated identifier with the side of each of
      its listings. A repeat inside one side is reported like one across sides. */
  method AssertNoLeakage(calibration: seq<string>, heldOut: seq<string>, hidden: seq<string>) returns (r: LeakCheck)
    ensures r == NoLeak <==> calibration != [] && heldOut != [] && ListedOnce(Listings(calibration, heldOut, hidden))
    ensures r.Leak? ==> (r.error.EmptySplits? <==> calibration == [] || heldOut == [])
    ensures r.Leak? && r.error.EmptySplits? ==>
              forall side :: side in r.error.names
                             <==> (side == Calibration && calibration == []) || (side == HeldOutSide && heldOut == [])
    ensures r.Leak? && r.error.Overlap? ==>
              forall id :: if |SidesOf(Listings(calibration, heldOut, hidden), id)| > 1
                           then id in r.error.sides
                                && r.error.sides[id] == SidesOf(Listings(calibration, heldOut, hidden), id)
                           else id !in r.error.sides
  {
    var empty := (if calibration == [] then [Calibration] else []) + (if heldOut == [] then [HeldOutSide] else []);
    if empty != [] {
      return Leak(EmptySplits(empty));
    }
    var rows := Listings(calibration, heldOut, hidden);
    var overlap := CollectOverlap(rows);
    ListedOnceIffNoOverlap(rows);
    if overlap != map[] {
      var id :| id in overlap;
      assert |SidesOf(rows, id)| > 1;
      return Leak(Overlap(overlap));
    }
    return NoLeak;
  }

  /** Where the guard and its docstring part: two listings of one identifier inside calibration are refused. */
  lemma RepeatInsideOneSideIsRefused(a: string, b: string)
    requires a != b
    ensures !ListedOnce(Listings([a, a], [b], []))
  {
    var rows := Listings([a, a], [b], []);
    assert rows[0].0 == rows[1].0;
  }
}
