/**
 The category taxonomy as stored: every document carries its parent pointer
 and, beside it, the index derived from it (ancestor chain, depth, root
 domain). TreeOk is the local rule each write must keep; the lemmas show that
 it makes the index agree with the plain parent relation everywhere.
 */
module CategoryTree {
  import opened Basics
  import opened Forest

  type CatId = nat

  const MAX_DEPTH := 2

  datatype Category = Category(
    parent: Option<CatId>,
    ancestors: seq<CatId>,
    depth: nat,
    rootDomain: string,
    slug: string)

  type Tree = map<CatId, Category>

  /** The stored tree with its index forgotten. */
  function ParentsOf(t: Tree): Parents {
    map id | id in t :: t[id].parent
  }

  predicate NodeOk(t: Tree, id: CatId)
    requires id in t
  {
    var c := t[id];
    && c.depth == |c.ancestors| <= MAX_DEPTH
    && match c.parent
       case None => c.ancestors == []
       case Some(p) =>
         p in t && c.ancestors == t[p].ancestors + [p] && c.rootDomain == t[p].rootDomain
  }

  ghost predicate TreeOk(t: Tree) {
    forall id :: id in t ==> NodeOk(t, id)
  }

  /** The query behind FindSubtree and DescendantIDs: a match on the stored chains. */
  function Subtree(t: Tree, top: CatId): set<CatId> {
    set x | x in t && (x == top || top in t[x].ancestors)
  }

  /** What the index must say, written over the parent relation alone. */
  ghost predicate IndexExact(t: Tree) {
    var par := ParentsOf(t);
    && (forall id :: id in t && t[id].parent.Some? ==> t[id].parent.value in t)
    && (forall id :: id in t ==> RootChain(par, id, t[id].ancestors))
    && (forall id :: id in t ==> t[id].depth == |t[id].ancestors| <= MAX_DEPTH)
    && (forall id, top :: id in t && top in t && Reaches(par, id, top) ==>
         t[id].rootDomain == t[top].rootDomain)
  }

  lemma {:induction false} ChainFromTree(t: Tree, id: CatId)
    requires TreeOk(t) && id in t
    ensures RootChain(ParentsOf(t), id, t[id].ancestors)
    decreases |t[id].ancestors|
  {
    assert NodeOk(t, id);
    if t[id].parent.Some? {
      var p := t[id].parent.value;
      assert NodeOk(t, p);
      ChainFromTree(t, p);
      assert (t[p].ancestors + [p])[..|t[p].ancestors|] == t[p].ancestors;
    }
  }

  lemma {:induction false} DomainFromTree(t: Tree, id: CatId, top: CatId, n: nat)
    requires TreeOk(t) && Climbs(ParentsOf(t), id, top, n)
    ensures top in t && t[id].rootDomain == t[top].rootDomain
    decreases n
  {
    assert NodeOk(t, id);
    if n > 0 {
      DomainFromTree(t, t[id].parent.value, top, n - 1);
    }
  }

  lemma SameDomain(t: Tree, id: CatId, top: CatId)
    requires TreeOk(t) && id in t && top in t && Reaches(ParentsOf(t), id, top)
    ensures t[id].rootDomain == t[top].rootDomain
  {
    var n: nat :| Climbs(ParentsOf(t), id, top, n);
    DomainFromTree(t, id, top, n);
  }

  lemma IndexFromTree(t: Tree)
    requires TreeOk(t)
    ensures IndexExact(t)
  {
    forall id | id in t
      ensures RootChain(ParentsOf(t), id, t[id].ancestors)
      ensures (t[id].parent.Some? ==> t[id].parent.value in t) && t[id].depth == |t[id].ancestors| <= MAX_DEPTH
    {
      ChainFromTree(t, id);
      assert NodeOk(t, id);
    }
    forall id, top | id in t && top in t && Reaches(ParentsOf(t), id, top)
      ensures t[id].rootDomain == t[top].rootDomain
    {
      SameDomain(t, id, top);
    }
  }

  /** One step of the chain relation, read back as the local rule. */
  lemma ChainStep(t: Tree, id: CatId, p: CatId)
    requires id in t && p in t && t[id].parent == Some(p)
    requires RootChain(ParentsOf(t), id, t[id].ancestors) && RootChain(ParentsOf(t), p, t[p].ancestors)
    ensures t[id].ancestors == t[p].ancestors + [p]
    ensures Reaches(ParentsOf(t), id, p)
  {
    var par, anc := ParentsOf(t), t[id].ancestors;
    ChainUnique(par, p, anc[..|anc| - 1], t[p].ancestors);
    assert anc == anc[..|anc| - 1] + [p];
    assert Climbs(par, p, p, 0);
    assert Climbs(par, id, p, 1);
  }

  lemma NodeFromIndex(t: Tree, id: CatId)
    requires IndexExact(t) && id in t
    ensures NodeOk(t, id)
  {
    if t[id].parent.Some? {
      ChainStep(t, id, t[id].parent.value);
    } else {
      assert RootChain(ParentsOf(t), id, t[id].ancestors);
    }
  }

  /**
   The local rule and the global meaning are the same thing: keeping TreeOk is
   keeping an exact index over a dangling-free relation.
   */
  lemma TreeOkIffIndexExact(t: Tree)
    ensures TreeOk(t) <==> IndexExact(t)
  {
    if TreeOk(t) {
      IndexFromTree(t);
    }
    if IndexExact(t) {
      forall id | id in t
        ensures NodeOk(t, id)
      {
        NodeFromIndex(t, id);
      }
    }
  }

  lemma TreeIsAcyclic(t: Tree)
    requires TreeOk(t)
    ensures Acyclic(ParentsOf(t))
  {
    var par := ParentsOf(t);
    forall x, n: nat | n > 0
      ensures !Climbs(par, x, x, n)
    {
      if x in t {
        ChainFromTree(t, x);
        ChainHasNoCycle(par, x, t[x].ancestors, n);
      }
    }
  }

  /** One chain match answers the descendant query exactly, in both directions. */
  lemma SubtreeIsReachability(t: Tree, top: CatId, x: CatId)
    requires TreeOk(t)
    ensures x in Subtree(t, top) <==> Reaches(ParentsOf(t), x, top)
  {
    if x in t {
      ChainFromTree(t, x);
      ReachesIffInChain(ParentsOf(t), x, t[x].ancestors, top);
    } else {
      assert forall n: nat :: !Climbs(ParentsOf(t), x, top, n);
    }
  }

  /** Entry i of a chain is a stored node, and its own chain is the part above it. */
  lemma {:induction false} AncestorAt(t: Tree, id: CatId, i: nat)
    requires TreeOk(t) && id in t && i < |t[id].ancestors|
    ensures t[id].ancestors[i] in t && t[t[id].ancestors[i]].ancestors == t[id].ancestors[..i]
    decreases |t[id].ancestors|
  {
    assert NodeOk(t, id);
    var anc, p := t[id].ancestors, t[id].parent.value;
    var last := |anc| - 1;
    assert anc[..last] == t[p].ancestors;
    if i < last {
      AncestorAt(t, p, i);
      assert anc[..i] == t[p].ancestors[..i];
    }
  }

  /** An ancestor chain names no node twice, and never the node itself: each entry's chain has its own length. */
  lemma AncestorsDistinct(t: Tree, id: CatId)
    requires TreeOk(t) && id in t
    ensures forall i :: 0 <= i < |t[id].ancestors| ==> t[id].ancestors[i] in t && t[id].ancestors[i] != id
    ensures forall i, j :: 0 <= i < j < |t[id].ancestors| ==> t[id].ancestors[i] != t[id].ancestors[j]
  {
    forall i | 0 <= i < |t[id].ancestors|
      ensures t[id].ancestors[i] in t && |t[t[id].ancestors[i]].ancestors| == i
    {
      AncestorAt(t, id, i);
    }
  }

  // ----- re-parenting -----

  /** The chain of x once node hangs under np: the part above node is replaced. */
  function Rebased(t: Tree, node: CatId, np: CatId, x: CatId): seq<CatId>
    requires {node, np, x} <= t.Keys && |t[node].ancestors| <= |t[x].ancestors|
  {
    t[np].ancestors + [np] + t[x].ancestors[|t[node].ancestors|..]
  }

  /** Exactly when a move is accepted: a known target outside the subtree, and no node too deep. */
  ghost predicate Movable(t: Tree, node: CatId, np: CatId)
    requires TreeOk(t) && node in t
  {
    && np in t
    && np !in Subtree(t, node)
    && forall x :: x in Subtree(t, node) ==>
         |t[np].ancestors| + 1 + |t[x].ancestors| - |t[node].ancestors| <= MAX_DEPTH
  }

  /** The tree after a move: the subtree is re-indexed, the node re-parented, the rest untouched. */
  function Moved(t: Tree, node: CatId, np: CatId): Tree
    requires node in t && np in t
    requires forall x :: x in Subtree(t, node) ==> |t[node].ancestors| <= |t[x].ancestors|
  {
    map x | x in t ::
      if x in Subtree(t, node) then
        var anc := Rebased(t, node, np, x);
        t[x].(ancestors := anc, depth := |anc|, rootDomain := t[np].rootDomain,
              parent := if x == node then Some(np) else t[x].parent)
      else t[x]
  }

  /** Below node, chains start with node's own chain and then node itself. */
  lemma SubtreeChains(t: Tree, node: CatId, x: CatId)
    requires TreeOk(t) && node in t && x in Subtree(t, node)
    ensures |t[node].ancestors| <= |t[x].ancestors|
    ensures x != node ==> t[x].parent.Some? && t[x].parent.value in Subtree(t, node)
    ensures x != node ==> |t[t[x].parent.value].ancestors| + 1 == |t[x].ancestors|
    ensures x == node || |t[node].ancestors| < |t[x].ancestors|
  {
    AncestorsDistinct(t, x);
    assert NodeOk(t, x);
  }

  lemma SubtreeChainsAll(t: Tree, node: CatId)
    requires TreeOk(t) && node in t
    ensures forall x :: x in Subtree(t, node) ==> |t[node].ancestors| <= |t[x].ancestors|
  {
    forall x | x in Subtree(t, node)
      ensures |t[node].ancestors| <= |t[x].ancestors|
    {
      SubtreeChains(t, node, x);
    }
  }

  /** A node's new chain is its parent's new chain and then the parent. */
  lemma RebasedStep(t: Tree, node: CatId, np: CatId, x: CatId)
    requires TreeOk(t) && node in t && np in t && x in Subtree(t, node) && x != node
    ensures t[x].parent.Some? && t[x].parent.value in Subtree(t, node)
    ensures |t[node].ancestors| <= |t[t[x].parent.value].ancestors|
    ensures |t[node].ancestors| <= |t[x].ancestors|
    ensures Rebased(t, node, np, x) == Rebased(t, node, np, t[x].parent.value) + [t[x].parent.value]
  {
    SubtreeChains(t, node, x);
    SubtreeChains(t, node, t[x].parent.value);
    assert NodeOk(t, x);
  }

  lemma MovedNodeOk(t: Tree, node: CatId, np: CatId, x: CatId)
    requires TreeOk(t) && node in t && Movable(t, node, np) && x in t
    requires forall y :: y in Subtree(t, node) ==> |t[node].ancestors| <= |t[y].ancestors|
    ensures NodeOk(Moved(t, node, np), x)
  {
    assert NodeOk(t, x);
    if x in Subtree(t, node) {
      if x == node {
        assert t[x].ancestors[|t[node].ancestors|..] == [];
      } else {
        RebasedStep(t, node, np, x);
      }
    } else if t[x].parent.Some? {
      assert t[x].parent.value !in Subtree(t, node);
    }
  }

  lemma RebasedThroughNode(t: Tree, node: CatId, np: CatId, x: CatId)
    requires TreeOk(t) && node in t && np in t && x in Subtree(t, node) && x != node
    requires |t[node].ancestors| <= |t[x].ancestors|
    ensures node in Rebased(t, node, np, x)
  {
    var i :| 0 <= i < |t[x].ancestors| && t[x].ancestors[i] == node;
    AncestorAt(t, x, i);
    assert |t[node].ancestors| == i;
    assert Rebased(t, node, np, x)[|t[np].ancestors| + 1] == node;
  }

  lemma MovedStaysBelow(t: Tree, node: CatId, np: CatId, x: CatId)
    requires TreeOk(t) && node in t && Movable(t, node, np) && x in t
    requires forall y :: y in Subtree(t, node) ==> |t[node].ancestors| <= |t[y].ancestors|
    ensures x in Subtree(Moved(t, node, np), node) <==> x in Subtree(t, node)
  {
    if x in Subtree(t, node) {
      assert Moved(t, node, np)[x].ancestors == Rebased(t, node, np, x);
      if x != node {
        RebasedThroughNode(t, node, np, x);
      }
    } else {
      assert Moved(t, node, np)[x] == t[x];
    }
  }

  /** An accepted move keeps the whole index exact, and moves exactly the subtree. */
  lemma MoveKeepsTree(t: Tree, node: CatId, np: CatId)
    requires TreeOk(t) && node in t && Movable(t, node, np)
    ensures forall x :: x in Subtree(t, node) ==> |t[node].ancestors| <= |t[x].ancestors|
    ensures TreeOk(Moved(t, node, np))
    ensures Subtree(Moved(t, node, np), node) == Subtree(t, node)
    ensures forall x :: x in t && x !in Subtree(t, node) ==> Moved(t, node, np)[x] == t[x]
  {
    SubtreeChainsAll(t, node);
    forall x | x in t
      ensures NodeOk(Moved(t, node, np), x)
      ensures x in Subtree(Moved(t, node, np), node) <==> x in Subtree(t, node)
    {
      MovedNodeOk(t, node, np, x);
      MovedStaysBelow(t, node, np, x);
    }
  }

  /** The paths after a move are the old ones, cut at node and continued through np. */
  lemma MoveReparents(t: Tree, node: CatId, np: CatId)
    requires TreeOk(t) && node in t && Movable(t, node, np)
    requires forall x :: x in Subtree(t, node) ==> |t[node].ancestors| <= |t[x].ancestors|
    ensures ParentsOf(Moved(t, node, np)) == ParentsOf(t)[node := Some(np)]
  {
    assert ParentsOf(Moved(t, node, np)).Keys == ParentsOf(t)[node := Some(np)].Keys;
  }
}
