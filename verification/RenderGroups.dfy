/** The union-find of benchmark/splits.py: constructed cases that share a rendered image are
    joined, and the held-out side of the benchmark is a union of whole groups. */
module RenderGroups {

  type CaseId = string
  type Digest = string

  function Cases(ids: seq<CaseId>): (cases: set<CaseId>) {
    set c | c in ids
  }

  // ---------------------------------------------------------------- connectivity

  // Two cases are adjacent when some digest occurs among the renders of both.
  ghost predicate Share(renders: CaseId -> seq<Digest>, a: CaseId, b: CaseId) {
    exists d :: d in renders(a) && d in renders(b)
  }

  ghost predicate IsChain(ids: set<CaseId>, renders: CaseId -> seq<Digest>, chain: seq<CaseId>, x: CaseId, y: CaseId) {
    && |chain| > 0 && chain[0] == x && chain[|chain| - 1] == y
    && (forall i :: 0 <= i < |chain| ==> chain[i] in ids)
    && (forall i :: 0 < i < |chain| ==> Share(renders, chain[i - 1], chain[i]))
  }

  // The reference notion of a group: some chain of shared digests, inside ids, leads from x to y.
  ghost predicate Connected(ids: set<CaseId>, renders: CaseId -> seq<Digest>, x: CaseId, y: CaseId) {
    exists chain :: IsChain(ids, renders, chain, x, y)
  }

  lemma ConnectedReflexive(ids: set<CaseId>, renders: CaseId -> seq<Digest>, x: CaseId)
    requires x in ids
    ensures Connected(ids, renders, x, x)
  {
    assert IsChain(ids, renders, [x], x, x);
  }

  lemma ConnectedOnce(ids: set<CaseId>, renders: CaseId -> seq<Digest>, x: CaseId, y: CaseId)
    requires x in ids && y in ids && Share(renders, x, y)
    ensures Connected(ids, renders, x, y)
  {
    assert IsChain(ids, renders, [x, y], x, y);
  }

  lemma ConnectedTransitive(ids: set<CaseId>, renders: CaseId -> seq<Digest>, x: CaseId, y: CaseId, z: CaseId)
    requires Connected(ids, renders, x, y) && Connected(ids, renders, y, z)
    ensures Connected(ids, renders, x, z)
  {
    var c :| IsChain(ids, renders, c, x, y);
    var d :| IsChain(ids, renders, d, y, z);
    var e := c + d[1..];
    forall i | 0 < i < |e| ensures Share(renders, e[i - 1], e[i]) {
      if i < |c| {
        assert e[i - 1] == c[i - 1] && e[i] == c[i];
      } else {
        var j := i - |c| + 1;
        assert e[i] == d[j] && e[i - 1] == d[j - 1];
      }
    }
    assert IsChain(ids, renders, e, x, z);
  }

  lemma {:induction false} ConnectedSymmetric(ids: set<CaseId>, renders: CaseId -> seq<Digest>, x: CaseId, y: CaseId)
    requires Connected(ids, renders, x, y)
    ensures Connected(ids, renders, y, x)
  {
    var c :| IsChain(ids, renders, c, x, y);
    var n := |c|;
    var e := seq(n, i requires 0 <= i < n => c[n - 1 - i]);
    forall i | 0 < i < n ensures Share(renders, e[i - 1], e[i]) {
      var j := n - i;
      assert Share(renders, c[j - 1], c[j]);
    }
    assert IsChain(ids, renders, e, y, x);
  }

  // Roots that agree across every shared digest agree along every chain.
  lemma {:induction false} RootAlongChain(ids: set<CaseId>, renders: CaseId -> seq<Digest>, root: map<CaseId, CaseId>,
                                           chain: seq<CaseId>, x: CaseId, y: CaseId)
    requires root.Keys == ids && IsChain(ids, renders, chain, x, y)
    requires forall a, b :: a in ids && b in ids && Share(renders, a, b) ==> root[a] == root[b]
    ensures root[x] == root[y]
    decreases |chain|
  {
    if |chain| > 1 {
      var shorter := chain[..|chain| - 1];
      RootAlongChain(ids, renders, root, shorter, x, shorter[|shorter| - 1]);
      assert Share(renders, chain[|chain| - 2], chain[|chain| - 1]);
    }
  }

  // ---------------------------------------------------------------- the parent forest

  // What linking right's root under left's root does to every case's root.
  ghost function Merge(root: map<CaseId, CaseId>, left: CaseId, right: CaseId): (merged: map<CaseId, CaseId>)
    requires left in root && right in root
    ensures merged.Keys == root.Keys
  {
    map x | x in root :: if root[x] == root[right] then root[left] else root[x]
  }

  // One case's place in the forest: its parent is a case with the same root, one step nearer to it.
  ghost predicate Placed(parent: map<CaseId, CaseId>, root: map<CaseId, CaseId>, depth: map<CaseId, nat>, x: CaseId)
    requires root.Keys == depth.Keys == parent.Keys && x in parent
  {
    && parent[x] in parent && root[x] in parent
    && root[parent[x]] == root[x]
    && parent[root[x]] == root[x]
    && (parent[x] == x ==> root[x] == x)
    && (parent[x] != x ==> depth[parent[x]] < depth[x])
  }

  ghost predicate IsForest(parent: map<CaseId, CaseId>, root: map<CaseId, CaseId>, depth: map<CaseId, nat>) {
    && root.Keys == depth.Keys == parent.Keys
    && forall x {:trigger Placed(parent, root, depth, x)} :: x in parent ==> Placed(parent, root, depth, x)
  }

  lemma HalvingKeepsForest(parent: map<CaseId, CaseId>, root: map<CaseId, CaseId>, depth: map<CaseId, nat>,
                           item: CaseId)
    requires IsForest(parent, root, depth) && item in parent && parent[item] != item
    ensures parent[item] in parent && parent[parent[item]] in parent
    ensures IsForest(parent[item := parent[parent[item]]], root, depth)
    ensures depth[parent[parent[item]]] < depth[item] && root[parent[parent[item]]] == root[item]
  {
    assert Placed(parent, root, depth, item) && Placed(parent, root, depth, parent[item]);
    var halved := parent[item := parent[parent[item]]];
    forall x | x in halved ensures Placed(halved, root, depth, x) {
      assert Placed(parent, root, depth, x);
    }
  }

  lemma LinkingKeepsForest(parent: map<CaseId, CaseId>, root: map<CaseId, CaseId>, depth: map<CaseId, nat>,
                           left: CaseId, right: CaseId, deeper: map<CaseId, nat>)
    requires IsForest(parent, root, depth) && left in parent && right in parent && root[left] != root[right]
    requires root[left] in parent
    requires deeper == map x | x in parent ::
                         if root[x] == root[right] then depth[x] + depth[root[left]] + 1 else depth[x]
    ensures IsForest(parent[root[right] := root[left]], Merge(root, left, right), deeper)
  {
    assert Placed(parent, root, depth, left) && Placed(parent, root, depth, right);
    assert Placed(parent, root, depth, root[left]) && Placed(parent, root, depth, root[right]);
    var linked, merged := parent[root[right] := root[left]], Merge(root, left, right);
    forall x | x in linked ensures Placed(linked, merged, deeper, x) {
      assert Placed(parent, root, depth, x) && Placed(parent, root, depth, root[x]);
    }
  }

  // The dict `parent` of _union_find with its nested find and union. `root` names the end of each
  // parent walk and `depth` bounds its length.
  class Forest {
    var parent: map<CaseId, CaseId>
    ghost var root: map<CaseId, CaseId>
    ghost var depth: map<CaseId, nat>

    ghost predicate Valid()
      reads this
    {
      IsForest(parent, root, depth)
    }

    constructor (ids: seq<CaseId>)
      ensures Valid()
      ensures parent == root == map x | x in ids :: x
    {
      parent := map x | x in ids :: x;
      root := map x | x in ids :: x;
      depth := map x | x in ids :: 0;
    }

    // Path halving: every visited case is re-pointed at its grandparent. No root changes.
    method Find(start: CaseId) returns (r: CaseId)
      requires Valid() && start in parent
      modifies `parent
      ensures Valid() && parent.Keys == old(parent.Keys)
      ensures start in root && r == root[start] && r in parent && parent[r] == r
    {
      var item := start;
      while parent[item] != item
        invariant Valid() && parent.Keys == old(parent.Keys)
        invariant item in parent && root[item] == root[start]
        decreases depth[item]
      {
        HalvingKeepsForest(parent, root, depth, item);
        parent := parent[item := parent[parent[item]]];
        item := parent[item];
      }
      assert Placed(parent, root, depth, item);
      r := item;
    }

    method Union(left: CaseId, right: CaseId)
      requires Valid() && left in parent && right in parent
      modifies this
      ensures Valid() && parent.Keys == old(parent.Keys)
      ensures root == Merge(old(root), left, right)
    {
      var rootLeft := Find(left);
      var rootRight := Find(right);
      ghost var deeper := map x | x in parent ::
          if root[x] == root[right] then depth[x] + depth[rootLeft] + 1 else depth[x];
      if rootLeft != rootRight {
        LinkingKeepsForest(parent, root, depth, left, right, deeper);
        root, depth := Merge(root, left, right), deeper;
        parent := parent[rootRight := rootLeft];
      } else {
        assert root == Merge(root, left, right);
      }
    }
  }

  // ---------------------------------------------------------------- joining cases by digest

  // Every listed case is a seen case that renders the digest, and no digest has an empty list.
  ghost predicate ListsOnly(seen: seq<CaseId>, renders: CaseId -> seq<Digest>, byDigest: map<Digest, seq<CaseId>>) {
    forall d :: d in byDigest ==> |byDigest[d]| > 0 && forall c :: c in byDigest[d] ==> c in seen && d in renders(c)
  }

  ghost predicate Lists(byDigest: map<Digest, seq<CaseId>>, d: Digest, c: CaseId) {
    d in byDigest && c in byDigest[d]
  }

  ghost predicate Indexes(seen: seq<CaseId>, renders: CaseId -> seq<Digest>, byDigest: map<Digest, seq<CaseId>>) {
    ListsOnly(seen, renders, byDigest) && forall c, d :: c in seen && d in renders(c) ==> Lists(byDigest, d, c)
  }

  // by_digest.setdefault(digest, []).append(case_id), in order; `order` is the dict's key order.
  method IndexByDigest(ids: seq<CaseId>, renders: CaseId -> seq<Digest>)
    returns (order: seq<Digest>, byDigest: map<Digest, seq<CaseId>>)
    ensures Indexes(ids, renders, byDigest)
    ensures forall d :: d in order <==> d in byDigest
  {
    order, byDigest := [], map[];
    for i := 0 to |ids|
      invariant Indexes(ids[..i], renders, byDigest)
      invariant forall d :: d in order <==> d in byDigest
    {
      var caseId := ids[i];
      var digests := renders(caseId);
      assert ids[..i + 1] == ids[..i] + [caseId];
      for j := 0 to |digests|
        invariant forall d :: d in order <==> d in byDigest
        invariant ListsOnly(ids[..i + 1], renders, byDigest)
        invariant forall c, d :: c in ids[..i] && d in renders(c) ==> Lists(byDigest, d, c)
        invariant forall d :: d in digests[..j] ==> Lists(byDigest, d, caseId)
      {
        var digest := digests[j];
        ghost var before := byDigest;
        var members := if digest in byDigest then byDigest[digest] else [];
        if digest !in byDigest {
          order := order + [digest];
        }
        byDigest := byDigest[digest := members + [caseId]];
        assert forall d, c :: Lists(before, d, c) ==> Lists(byDigest, d, c);
      }
      assert digests[..|digests|] == digests;
    }
    assert ids[..|ids|] == ids;
  }

  ghost predicate OnlyJoinsConnected(ids: set<CaseId>, renders: CaseId -> seq<Digest>, root: map<CaseId, CaseId>) {
    root.Keys == ids && forall x, y :: x in ids && y in ids && root[x] == root[y] ==> Connected(ids, renders, x, y)
  }

  lemma MergeStaysConnected(ids: set<CaseId>, renders: CaseId -> seq<Digest>, root: map<CaseId, CaseId>, left: CaseId,
                            right: CaseId)
    requires OnlyJoinsConnected(ids, renders, root) && left in ids && right in ids && Share(renders, left, right)
    ensures OnlyJoinsConnected(ids, renders, Merge(root, left, right))
  {
    var merged := Merge(root, left, right);
    ConnectedOnce(ids, renders, left, right);
    forall x, y | x in ids && y in ids && merged[x] == merged[y] ensures Connected(ids, renders, x, y) {
      if root[x] != root[y] {
        if root[x] == root[right] {
          ConnectedTransitive(ids, renders, y, left, right);
          ConnectedTransitive(ids, renders, y, right, x);
          ConnectedSymmetric(ids, renders, y, x);
        } else {
          ConnectedTransitive(ids, renders, x, left, right);
          ConnectedTransitive(ids, renders, x, right, y);
        }
      }
    }
  }

  ghost predicate SameRoot(root: map<CaseId, CaseId>, members: seq<CaseId>) {
    forall m, n :: m in members && n in members && m in root && n in root ==> root[m] == root[n]
  }

  lemma MergeKeepsSameRoot(root: map<CaseId, CaseId>, left: CaseId, right: CaseId, members: seq<CaseId>)
    requires left in root && right in root && SameRoot(root, members)
    ensures SameRoot(Merge(root, left, right), members)
  {}

  // for other in members[1:]: union(head, other)
  method JoinMembers(forest: Forest, members: seq<CaseId>, ghost ids: set<CaseId>, ghost renders: CaseId -> seq<Digest>,
                     ghost digest: Digest, ghost joined: set<seq<CaseId>>)
    requires forest.Valid() && forest.parent.Keys == ids && OnlyJoinsConnected(ids, renders, forest.root)
    requires |members| > 0 && forall c :: c in members ==> c in ids && digest in renders(c)
    requires forall group :: group in joined ==> SameRoot(forest.root, group)
    modifies forest
    ensures forest.Valid() && forest.parent.Keys == ids && OnlyJoinsConnected(ids, renders, forest.root)
    ensures forall group :: group in joined + {members} ==> SameRoot(forest.root, group)
  {
    var head := members[0];
    for j := 1 to |members|
      invariant forest.Valid() && forest.parent.Keys == ids && OnlyJoinsConnected(ids, renders, forest.root)
      invariant forall group :: group in joined ==> SameRoot(forest.root, group)
      invariant SameRoot(forest.root, members[..j])
    {
      ghost var before := forest.root;
      forest.Union(head, members[j]);
      JoinOneMore(ids, renders, digest, before, joined, members, j);
    }
    assert members[..|members|] == members;
  }

  // The member just joined has the head's root, as the members before it have.
  lemma JoinedGrows(root: map<CaseId, CaseId>, members: seq<CaseId>, j: nat)
    requires 1 <= j < |members| && members[0] in root && members[j] in root
    requires SameRoot(root, members[..j])
    ensures SameRoot(Merge(root, members[0], members[j]), members[..j + 1])
  {
    hide SameRoot;
    MergeKeepsSameRoot(root, members[0], members[j], members[..j]);
    assert members[..j + 1] == members[..j] + [members[j]];
    OneMoreSameRoot(Merge(root, members[0], members[j]), members[..j], members[j]);
  }

  lemma OneMoreSameRoot(root: map<CaseId, CaseId>, members: seq<CaseId>, other: CaseId)
    requires SameRoot(root, members) && members != [] && members[0] in root && other in root
             && root[members[0]] == root[other]
    ensures SameRoot(root, members + [other])
  {
    assert members[0] in members;
  }

  lemma JoinOneMore(ids: set<CaseId>, renders: CaseId -> seq<Digest>, digest: Digest, root: map<CaseId, CaseId>,
                    joined: set<seq<CaseId>>, members: seq<CaseId>, j: nat)
    requires OnlyJoinsConnected(ids, renders, root) && 1 <= j < |members|
    requires forall c :: c in members ==> c in ids && digest in renders(c)
    requires forall group :: group in joined ==> SameRoot(root, group)
    requires SameRoot(root, members[..j])
    ensures OnlyJoinsConnected(ids, renders, Merge(root, members[0], members[j]))
    ensures forall group :: group in joined ==> SameRoot(Merge(root, members[0], members[j]), group)
    ensures SameRoot(Merge(root, members[0], members[j]), members[..j + 1])
  {
    hide SameRoot, Connected;
    var head, other := members[0], members[j];
    assert digest in renders(head) && digest in renders(other);
    MergeStaysConnected(ids, renders, root, head, other);
    forall group | group in joined ensures SameRoot(Merge(root, head, other), group) {
      MergeKeepsSameRoot(root, head, other, group);
    }
    JoinedGrows(root, members, j);
  }

  /** root is the same for two cases exactly when a chain of shared digests connects them. */
  ghost predicate DecidesConnection(ids: set<CaseId>, renders: CaseId -> seq<Digest>, root: map<CaseId, CaseId>) {
    root.Keys == ids && forall x, y :: x in ids && y in ids ==> (root[x] == root[y] <==> Connected(ids, renders, x, y))
  }

  lemma RootsDecideConnection(ids: seq<CaseId>, renders: CaseId -> seq<Digest>, byDigest: map<Digest, seq<CaseId>>,
                              order: seq<Digest>, root: map<CaseId, CaseId>)
    requires Indexes(ids, renders, byDigest)
    requires forall d :: d in order <==> d in byDigest
    requires forall k :: 0 <= k < |order| ==> SameRoot(root, byDigest[order[k]])
    requires OnlyJoinsConnected(Cases(ids), renders, root)
    ensures DecidesConnection(Cases(ids), renders, root)
  {
    var all := Cases(ids);
    forall a, b | a in all && b in all && Share(renders, a, b) ensures root[a] == root[b] {
      var d :| d in renders(a) && d in renders(b);
      assert Lists(byDigest, d, a) && Lists(byDigest, d, b) && d in order;
      var k :| 0 <= k < |order| && order[k] == d;
      assert SameRoot(root, byDigest[order[k]]);
    }
    forall x, y | x in ids && y in ids && Connected(all, renders, x, y) ensures root[x] == root[y] {
      var chain :| IsChain(all, renders, chain, x, y);
      RootAlongChain(all, renders, root, chain, x, y);
    }
  }

  method JoinByDigest(forest: Forest, ids: seq<CaseId>, renders: CaseId -> seq<Digest>)
    requires forest.Valid() && forest.parent.Keys == Cases(ids)
    requires OnlyJoinsConnected(Cases(ids), renders, forest.root)
    modifies forest
    ensures forest.Valid() && forest.parent.Keys == Cases(ids)
    ensures DecidesConnection(Cases(ids), renders, forest.root)
  {
    var order, byDigest := IndexByDigest(ids, renders);
    ghost var joined := {};
    for i := 0 to |order|
      invariant forest.Valid() && forest.parent.Keys == Cases(ids)
      invariant OnlyJoinsConnected(Cases(ids), renders, forest.root)
      invariant forall group :: group in joined ==> SameRoot(forest.root, group)
      invariant forall k :: 0 <= k < i ==> byDigest[order[k]] in joined
    {
      assert order[i] in order;
      JoinMembers(forest, byDigest[order[i]], Cases(ids), renders, order[i], joined);
      joined := joined + {byDigest[order[i]]};
    }
    RootsDecideConnection(ids, renders, byDigest, order, forest.root);
  }

  lemma AloneIsConnected(ids: seq<CaseId>, renders: CaseId -> seq<Digest>)
    ensures OnlyJoinsConnected(Cases(ids), renders, map x | x in ids :: x)
  {
    forall x | x in Cases(ids) ensures Connected(Cases(ids), renders, x, x) {
      ConnectedReflexive(Cases(ids), renders, x);
    }
  }

  /** Two cases get the same root exactly when a chain of shared image digests connects them. */
  method UnionFind(ids: seq<CaseId>, renders: CaseId -> seq<Digest>) returns (roots: map<CaseId, CaseId>)
    ensures DecidesConnection(Cases(ids), renders, roots)
    ensures forall x :: x in ids ==> roots[x] in ids && roots[roots[x]] == roots[x]
  {
    hide DecidesConnection, IsForest, OnlyJoinsConnected;
    var forest := new Forest(ids);
    AloneIsConnected(ids, renders);
    JoinByDigest(forest, ids, renders);
    ghost var settled := forest.root;
    roots := map[];
    for i := 0 to |ids|
      invariant fresh(forest) && forest.Valid() && forest.root == settled && forest.parent.Keys == Cases(ids)
      invariant roots.Keys == Cases(ids[..i])
      invariant forall x :: x in roots ==> x in settled && roots[x] == settled[x]
    {
      var r := forest.Find(ids[i]);
      roots := roots[ids[i] := r];
      assert ids[..i + 1] == ids[..i] + [ids[i]];
    }
    assert ids[..|ids|] == ids;
    assert roots == settled;
    RootsAreTheirOwn(forest.parent, forest.root, forest.depth);
  }

  lemma RootsAreTheirOwn(parent: map<CaseId, CaseId>, root: map<CaseId, CaseId>, depth: map<CaseId, nat>)
    requires IsForest(parent, root, depth)
    ensures forall x :: x in root ==> root[x] in root && root[root[x]] == root[x]
  {
    forall x | x in root ensures root[x] in root && root[root[x]] == root[x] {
      assert Placed(parent, root, depth, x);
      assert Placed(parent, root, depth, root[x]);
    }
  }
}
