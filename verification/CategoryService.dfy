/** The category service over its collection: create, move, delete and list, as loops over stored documents. */
module CategoryService {
  import opened Basics
  import opened CategoryTree
  import opened CategoryCounts
  import opened Slugs

  datatype Refusal =
    | NameRequired
    | ParentNotFound
    | TooDeep
    | OwnParent
    | UnderDescendant
    | NotFound
    | HasSubcategories
    | HasProducts

  datatype ListItem = ListItem(id: CatId, hasChildren: bool, productCount: Option<nat>)

  /** The documents a new node under this parent would sit beside. */
  function Siblings(t: Tree, parent: Option<CatId>): set<CatId> {
    match parent
    case None => set id | id in t && t[id].depth == 0
    case Some(_) => set id | id in t && t[id].parent == parent
  }

  predicate Taken(t: Tree, parent: Option<CatId>, slug: string) {
    exists id :: id in Siblings(t, parent) && t[id].slug == slug
  }

  /** The figure a listing shows: the domain's own count for a root, the whole subtree's for the rest. */
  ghost function CountShown(t: Tree, all: seq<CatId>, direct: Counts, roots: map<string, nat>, id: CatId): nat
    requires TreeOk(t) && Lists(all, t) && id in t
  {
    if t[id].parent.Some? then SubtreeCount(t, direct, all, id)
    else if t[id].rootDomain in roots then roots[t[id].rootDomain]
    else 0
  }

  /** Stored nodes, none twice, parents never after their children. */
  ghost predicate ShallowestFirst(t: Tree, ids: seq<CatId>) {
    && (forall i :: 0 <= i < |ids| ==> ids[i] in t)
    && (forall i, j :: 0 <= i < j < |ids| ==> ids[i] != ids[j] && t[ids[i]].depth <= t[ids[j]].depth)
  }

  /** Hung under np, no node of the subtree is deeper than the live tree allows. */
  predicate FitsUnder(t: Tree, node: CatId, np: CatId)
    requires node in t && np in t
  {
    forall x :: x in t && (x == node || node in t[x].ancestors) ==>
      |t[np].ancestors| + 1 + |t[x].ancestors| - |t[node].ancestors| <= 2
  }

  /** newAnc holds the new chain of each of these subtree nodes, none too long. */
  ghost predicate Charted(t: Tree, node: CatId, np: CatId, xs: seq<CatId>, newAnc: map<CatId, seq<CatId>>)
    requires TreeOk(t) && node in t && np in t
  {
    forall x :: x in xs ==>
      && x in Subtree(t, node)
      && |t[node].ancestors| <= |t[x].ancestors|
      && x in newAnc && newAnc[x] == Rebased(t, node, np, x) && |newAnc[x]| <= MAX_DEPTH
  }

  class Service {
    var cats: Tree

    constructor ()
      ensures cats == map[]
    {
      cats := map[];
    }

    /** The node and everything under it, shallowest first. */
    method FindSubtree(top: CatId) returns (ids: seq<CatId>)
      ensures forall x :: x in ids <==> x in Subtree(cats, top)
      ensures ShallowestFirst(cats, ids)
    {
      var rest := Subtree(cats, top);
      ids := [];
      while rest != {}
        invariant forall x :: x in Subtree(cats, top) <==> x in ids || x in rest
        invariant forall x :: x in ids ==> x !in rest
        invariant ShallowestFirst(cats, ids)
        invariant forall i, y :: 0 <= i < |ids| && y in rest ==> cats[ids[i]].depth <= cats[y].depth
        decreases rest
      {
        ghost var shallowest := Shallowest(cats, rest);
        var x :| x in rest && forall y :: y in rest ==> cats[x].depth <= cats[y].depth;
        ids, rest := ids + [x], rest - {x};
      }
    }

    /** base when no sibling has it, else the first of base-2, base-3, ... that none has. */
    method UniqueSiblingSlug(parent: Option<CatId>, base: string) returns (slug: string)
      ensures !Taken(cats, parent, slug)
      ensures forall id :: id in cats && (if parent.Some? then cats[id].parent == parent else cats[id].depth == 0) ==> cats[id].slug != slug
      ensures slug == base || exists k ::
                && 2 <= k <= |Siblings(cats, parent)| + 1
                && slug == Numbered(base, k)
                && Taken(cats, parent, base)
                && forall j :: 2 <= j < k ==> Taken(cats, parent, Numbered(base, j))
    {
      var siblings := Siblings(cats, parent);
      var rest, taken := siblings, {};
      while rest != {}
        invariant rest <= siblings
        invariant forall s :: s in taken <==> exists id :: id in siblings - rest && cats[id].slug == s
        invariant |taken| + |rest| <= |siblings|
        decreases rest
      {
        var id :| id in rest;
        rest, taken := rest - {id}, taken + {cats[id].slug};
      }
      assert siblings - rest == siblings;
      if base !in taken {
        return base;
      }
      var i := 2;
      while Numbered(base, i) in taken
        invariant i >= 2
        invariant forall j :: 2 <= j < i ==> Numbered(base, j) in taken
        decreases |taken| + 2 - i
      {
        TriedFits(base, i + 1, taken);
        i := i + 1;
      }
      TriedFits(base, i, taken);
      slug := Numbered(base, i);
    }

    /** A new node: its index is its parent's, extended by the parent. */
    method Create(named: bool, base: string, parent: Option<CatId>) returns (r: Result<CatId, Refusal>)
      requires TreeOk(cats)
      modifies this
      ensures TreeOk(cats)
      ensures r.Ok? <==> named && (parent.Some? ==>
                parent.value in old(cats) && old(cats)[parent.value].depth < 2)
      ensures r.Err? ==> cats == old(cats)
      ensures r.Ok? ==>
                && r.value !in old(cats)
                && cats.Keys == old(cats).Keys + {r.value}
                && (forall id :: id in old(cats) ==> cats[id] == old(cats)[id])
                && cats[r.value].parent == parent
                && cats[r.value].rootDomain == (if parent.Some? then old(cats)[parent.value].rootDomain else base)
                && (forall id :: id in old(cats) && old(cats)[id].parent == parent ==> old(cats)[id].slug != cats[r.value].slug)
                && (cats[r.value].slug == base || exists k :: k >= 2 && cats[r.value].slug == Numbered(base, k))
      ensures r.Err? ==> r.error == if !named then NameRequired else if parent.value !in old(cats) then ParentNotFound else TooDeep
    {
      if !named {
        return Err(NameRequired);
      }
      var c := Category(None, [], 0, base, base);
      if parent.Some? {
        var pid := parent.value;
        if pid !in cats {
          return Err(ParentNotFound);
        }
        assert NodeOk(cats, pid);
        var p := cats[pid];
        if p.depth >= MAX_DEPTH {
          return Err(TooDeep);
        }
        c := Category(parent, p.ancestors + [pid], p.depth + 1, p.rootDomain, base);
      }
      var slug := UniqueSiblingSlug(parent, base);
      var unused := FreshId(cats.Keys);
      var id: CatId :| id !in cats;
      assert forall x :: x in cats && cats[x].parent == parent ==> x in Siblings(cats, parent) by {
        assert forall x :: x in cats ==> NodeOk(cats, x);
      }
      label before:
      cats := cats[id := c.(slug := slug)];
      forall x | x in cats
        ensures NodeOk(cats, x)
      {
        assert x != id ==> NodeOk(old@before(cats), x);
      }
      return Ok(id);
    }

    /** First pass of a move: every new chain of the subtree, or None when one is too long. */
    method NewChains(node: CatId, np: CatId, subtree: seq<CatId>) returns (r: Option<map<CatId, seq<CatId>>>)
      requires TreeOk(cats) && node in cats && np in cats
      requires ShallowestFirst(cats, subtree) && forall x :: x in subtree <==> x in Subtree(cats, node)
      ensures forall x :: x in subtree ==> |cats[node].ancestors| <= |cats[x].ancestors|
      ensures r.Some? <==> forall x :: x in subtree ==> |Rebased(cats, node, np, x)| <= MAX_DEPTH
      ensures r.Some? ==> forall x :: x in subtree ==> x in r.value && r.value[x] == Rebased(cats, node, np, x)
    {
      SubtreeChainsAll(cats, node);
      assert cats[node].ancestors[|cats[node].ancestors|..] == [];
      var newAnc: map<CatId, seq<CatId>> := map[node := cats[np].ancestors + [np]];
      for i := 0 to |subtree|
        invariant node in newAnc && newAnc[node] == Rebased(cats, node, np, node)
        invariant Charted(cats, node, np, subtree[..i], newAnc)
      {
        var c := subtree[i];
        if c != node {
          ParentIsCharted(cats, node, np, subtree, i, newAnc);
          var p := cats[c].parent.value;
          newAnc := newAnc[c := newAnc[p] + [p]];
        }
        if |newAnc[c]| > MAX_DEPTH {
          assert c in subtree;
          return None;
        }
        ChartNext(cats, node, np, subtree, i, newAnc);
      }
      Prefix(subtree, |subtree|);
      return Some(newAnc);
    }

    /**
     Re-parents a node. Every affected chain is computed and checked before the
     first write, so a refusal leaves the collection as it was.
     */
    method Move(node: CatId, np: CatId) returns (r: Result<(), Refusal>)
      requires TreeOk(cats) && node in cats
      modifies this
      ensures TreeOk(cats)
      ensures r.Ok? <==> Movable(old(cats), node, np)
      ensures r.Err? ==> cats == old(cats)
      ensures forall x :: x in Subtree(old(cats), node) ==> |old(cats)[node].ancestors| <= |old(cats)[x].ancestors|
      ensures r.Ok? ==> cats == Moved(old(cats), node, np)
      ensures r.Ok? <==> np in old(cats) && np != node && node !in old(cats)[np].ancestors && FitsUnder(old(cats), node, np)
      ensures r.Ok? ==> cats.Keys == old(cats).Keys && forall x :: x in cats ==>
                cats[x].slug == old(cats)[x].slug && cats[x].parent == if x == node then Some(np) else old(cats)[x].parent
      ensures r.Err? ==> r.error == if np !in old(cats) then ParentNotFound else if np == node then OwnParent
                                    else if node in old(cats)[np].ancestors then UnderDescendant else TooDeep
    {
      SubtreeChainsAll(cats, node);
      if np !in cats {
        return Err(ParentNotFound);
      }
      if np == node {
        return Err(OwnParent);
      }
      if node in cats[np].ancestors {
        return Err(UnderDescendant);
      }
      var subtree := FindSubtree(node);
      var newAnc := NewChains(node, np, subtree);
      MovableIffShallow(cats, node, np, subtree);
      if newAnc.None? {
        return Err(TooDeep);
      }
      MoveKeepsTree(cats, node, np);
      WriteChains(node, np, subtree, newAnc.value);
      return Ok(());
    }

    /** Second pass of a move: one document write per node; only the moved node changes parent. */
    method WriteChains(node: CatId, np: CatId, subtree: seq<CatId>, newAnc: map<CatId, seq<CatId>>)
      requires node in cats && np in cats && np !in subtree
      requires forall x :: x in subtree <==> x in Subtree(cats, node)
      requires forall i, j :: 0 <= i < j < |subtree| ==> subtree[i] != subtree[j]
      requires forall x :: x in subtree ==> |cats[node].ancestors| <= |cats[x].ancestors|
      requires forall x :: x in subtree ==> x in newAnc && newAnc[x] == Rebased(cats, node, np, x)
      modifies this
      ensures forall x :: x in Subtree(old(cats), node) ==> |old(cats)[node].ancestors| <= |old(cats)[x].ancestors|
      ensures cats == Moved(old(cats), node, np)
    {
      ghost var t := cats;
      ghost var m := Moved(t, node, np);
      var domain := cats[np].rootDomain;
      for i := 0 to |subtree|
        invariant cats.Keys == t.Keys
        invariant forall x :: x in t ==> cats[x] == if x in subtree[..i] then m[x] else t[x]
      {
        var c := subtree[i];
        assert c in subtree && c !in subtree[..i];
        var doc := cats[c].(ancestors := newAnc[c], depth := |newAnc[c]|, rootDomain := domain);
        if c == node {
          doc := doc.(parent := Some(np));
        }
        assert doc == m[c];
        cats := cats[c := doc];
        Prefix(subtree, i);
      }
      Prefix(subtree, |subtree|);
      assert cats == m;
    }

    /** Removes a leaf that no product is assigned to; anything else is refused. */
    method Delete(id: CatId, products: nat) returns (r: Result<(), Refusal>)
      requires TreeOk(cats)
      modifies this
      ensures TreeOk(cats)
      ensures r.Ok? <==> id in old(cats) && Subtree(old(cats), id) == {id} && products == 0
      ensures cats == if r.Ok? then old(cats) - {id} else old(cats)
      ensures r.Ok? <==> id in old(cats) && products == 0 && forall c :: c in old(cats) ==> old(cats)[c].parent != Some(id)
      ensures r.Err? ==> r.error == if id !in old(cats) then NotFound
                                    else if exists c :: c in old(cats) && old(cats)[c].parent == Some(id) then HasSubcategories else HasProducts
    {
      if id !in cats {
        return Err(NotFound);
      }
      LeafHasNoSubtree(cats, id);
      if exists c :: c in cats && cats[c].parent == Some(id) {
        return Err(HasSubcategories);
      }
      if products > 0 {
        return Err(HasProducts);
      }
      label before:
      cats := cats - {id};
      forall x | x in cats
        ensures NodeOk(cats, x)
      {
        assert NodeOk(old@before(cats), x);
      }
      return Ok(());
    }

    /** Every node that some listed document names as its parent. */
    method ParentSet(all: seq<CatId>) returns (hasChild: set<CatId>)
      requires Lists(all, cats)
      ensures forall p :: p in hasChild <==> exists c :: c in cats && cats[c].parent == Some(p)
    {
      hasChild := {};
      for k := 0 to |all|
        invariant forall p :: p in hasChild <==> exists j :: 0 <= j < k && cats[all[j]].parent == Some(p)
      {
        if cats[all[k]].parent.Some? {
          hasChild := hasChild + {cats[all[k]].parent.value};
        }
      }
      forall p | exists c :: c in cats && cats[c].parent == Some(p)
        ensures p in hasChild
      {
        var c :| c in cats && cats[c].parent == Some(p);
        assert c in all;
      }
    }

    /** Annotates a listing with has-children flags and, on request, product counts. */
    method List(shown: seq<CatId>, all: seq<CatId>, withCounts: bool, direct: Counts, roots: map<string, nat>)
      returns (items: seq<ListItem>)
      requires TreeOk(cats) && Lists(all, cats) && forall id :: id in shown ==> id in cats
      ensures |items| == |shown|
      ensures forall i :: 0 <= i < |items| ==>
                && items[i].id == shown[i]
                && (items[i].hasChildren <==> exists c :: c in cats && cats[c].parent == Some(shown[i]))
                && items[i].productCount ==
                   if withCounts then Some(CountShown(cats, all, direct, roots, shown[i])) else None
    {
      var hasChild := ParentSet(all);
      var rolled: map<CatId, nat> := map[];
      if withCounts {
        rolled := RollUp(all, direct);
      }
      items := [];
      for i := 0 to |shown|
        invariant |items| == i
        invariant forall j :: 0 <= j < i ==>
                    && items[j].id == shown[j]
                    && (items[j].hasChildren <==> shown[j] in hasChild)
                    && items[j].productCount ==
                       if withCounts then Some(CountShown(cats, all, direct, roots, shown[j])) else None
      {
        var id := shown[i];
        assert id in shown && NodeOk(cats, id);
        var count: Option<nat> := None;
        if withCounts {
          if cats[id].depth == 0 {
            count := Some(if cats[id].rootDomain in roots then roots[cats[id].rootDomain] else 0);
          } else {
            count := Some(CountOf(rolled, id));
            RollUpIsSubtreeCount(cats, direct, all, id);
          }
        }
        items := items + [ListItem(id, id in hasChild, count)];
      }
    }

    /** Adds every node's direct count to the node and to each entry of its chain. */
    method RollUp(all: seq<CatId>, direct: Counts) returns (rolled: Counts)
      requires TreeOk(cats) && Lists(all, cats)
      ensures forall x :: CountOf(rolled, x) == Rolled(cats, direct, all, x)
    {
      rolled := map[];
      for i := 0 to |all|
        invariant RolledUp(cats, direct, all[..i], rolled)
      {
        var next := CountAlong(rolled, all[i], direct);
        RolledGrows(cats, direct, all, i, rolled, next);
        rolled := next;
      }
      Prefix(all, |all|);
    }

    /** Adds one node's direct count to the node and to each entry of its chain. */
    method CountAlong(rolled: Counts, y: CatId, direct: Counts) returns (r: Counts)
      requires TreeOk(cats) && y in cats
      ensures forall x :: CountOf(r, x) == CountOf(rolled, x) + if Covers(cats, x, y) then CountOf(direct, y) else 0
    {
      var n := CountOf(direct, y);
      if n == 0 {
        return rolled;
      }
      AncestorsDistinct(cats, y);
      r := AddAlong(rolled, [y] + cats[y].ancestors, n);
    }
  }

  /** Outside the subtree, a target is refused only for a chain that would get too long. */
  lemma MovableIffShallow(t: Tree, node: CatId, np: CatId, subtree: seq<CatId>)
    requires TreeOk(t) && node in t && np in t && np != node && node !in t[np].ancestors
    requires forall x :: x in subtree <==> x in Subtree(t, node)
    requires forall x :: x in subtree ==> |t[node].ancestors| <= |t[x].ancestors|
    ensures Movable(t, node, np) <==> forall x :: x in subtree ==> |Rebased(t, node, np, x)| <= MAX_DEPTH
  {
    forall x | x in subtree
      ensures |Rebased(t, node, np, x)| == |t[np].ancestors| + 1 + |t[x].ancestors| - |t[node].ancestors|
    {
      assert x in Subtree(t, node);
    }
  }

  /** The counts rolled up over the listed nodes. */
  ghost predicate RolledUp(t: Tree, direct: Counts, ys: seq<CatId>, rolled: Counts) {
    (forall y :: y in ys ==> y in t) && forall x :: CountOf(rolled, x) == Rolled(t, direct, ys, x)
  }

  /** One more node counted along its chain. */
  lemma RolledGrows(t: Tree, direct: Counts, all: seq<CatId>, i: nat, before: Counts, after: Counts)
    requires Lists(all, t) && i < |all| && all[i] in t && RolledUp(t, direct, all[..i], before)
    requires forall x :: CountOf(after, x) == CountOf(before, x) + if Covers(t, x, all[i]) then CountOf(direct, all[i]) else 0
    ensures RolledUp(t, direct, all[..i + 1], after)
  {
    assert all[..i + 1][..i] == all[..i];
  }

  /** Adds n to every listed node's count. */
  method AddAlong(rolled: Counts, nodes: seq<CatId>, n: nat) returns (r: Counts)
    requires forall i, j :: 0 <= i < j < |nodes| ==> nodes[i] != nodes[j]
    ensures forall x :: CountOf(r, x) == CountOf(rolled, x) + if x in nodes then n else 0
  {
    r := rolled;
    for j := 0 to |nodes|
      invariant forall x :: CountOf(r, x) == CountOf(rolled, x) + if x in nodes[..j] then n else 0
    {
      assert nodes[j] !in nodes[..j];
      r := r[nodes[j] := CountOf(r, nodes[j]) + n];
      Prefix(nodes, j);
    }
    Prefix(nodes, |nodes|);
  }

  lemma Shallowest(t: Tree, s: set<CatId>) returns (x: CatId)
    requires s != {} && s <= t.Keys
    ensures x in s && forall y :: y in s ==> t[x].depth <= t[y].depth
  {
    x :| x in s;
    var rest := s - {x};
    assert s == rest + {x};
    if rest != {} {
      var z := Shallowest(t, rest);
      x := if t[x].depth <= t[z].depth then x else z;
    }
  }

  /** In a shallowest-first listing of a subtree, a node follows its parent. */
  lemma ParentComesFirst(t: Tree, node: CatId, ids: seq<CatId>, i: nat)
    requires TreeOk(t) && node in t && i < |ids| && ids[i] != node
    requires forall x :: x in ids <==> x in Subtree(t, node)
    requires ShallowestFirst(t, ids)
    ensures t[ids[i]].parent.Some?
    ensures exists j :: 0 <= j < i && ids[j] == t[ids[i]].parent.value
  {
    assert ids[i] in ids;
    SubtreeChains(t, node, ids[i]);
    var p := t[ids[i]].parent.value;
    assert NodeOk(t, ids[i]) && NodeOk(t, p) && p in ids;
  }

  /** A node without children has nothing below it. */
  lemma LeafHasNoSubtree(t: Tree, id: CatId)
    requires TreeOk(t) && id in t
    ensures Subtree(t, id) == {id} <==> !exists c :: c in t && t[c].parent == Some(id)
  {
    if c :| c in t && t[c].parent == Some(id) {
      assert NodeOk(t, c) && NodeOk(t, id);
      assert c in Subtree(t, id) && c != id;
    }
    if x :| x in Subtree(t, id) && x != id {
      AncestorsDistinct(t, x);
      assert NodeOk(t, x);
      var anc := t[x].ancestors;
      var i :| 0 <= i < |anc| && anc[i] == id;
      if i + 1 < |anc| {
        assert NodeOk(t, anc[i + 1]);
        assert t[anc[i + 1]].ancestors == anc[..i + 1];
        assert t[anc[i + 1]].parent == Some(id);
      } else {
        assert t[x].parent == Some(id);
      }
    }
  }

  /** So its parent's new chain is known, and extending it gives the node's own. */
  lemma ParentIsCharted(t: Tree, node: CatId, np: CatId, ids: seq<CatId>, i: nat, newAnc: map<CatId, seq<CatId>>)
    requires TreeOk(t) && node in t && np in t && i < |ids| && ids[i] != node
    requires ShallowestFirst(t, ids) && forall x :: x in ids <==> x in Subtree(t, node)
    requires Charted(t, node, np, ids[..i], newAnc)
    ensures t[ids[i]].parent.Some? && t[ids[i]].parent.value in newAnc && ids[i] in Subtree(t, node)
    ensures |t[node].ancestors| <= |t[ids[i]].ancestors|
    ensures newAnc[t[ids[i]].parent.value] + [t[ids[i]].parent.value] == Rebased(t, node, np, ids[i])
    ensures ids[i] !in ids[..i]
  {
    ParentComesFirst(t, node, ids, i);
    var j :| 0 <= j < i && ids[j] == t[ids[i]].parent.value;
    assert ids[..i][j] == ids[j];
    assert ids[i] in ids;
    RebasedStep(t, node, np, ids[i]);
  }

  lemma ChartNext(t: Tree, node: CatId, np: CatId, ids: seq<CatId>, i: nat, newAnc: map<CatId, seq<CatId>>)
    requires TreeOk(t) && node in t && np in t && i < |ids| && ids[i] in Subtree(t, node)
    requires |t[node].ancestors| <= |t[ids[i]].ancestors|
    requires Charted(t, node, np, ids[..i], newAnc)
    requires ids[i] in newAnc && newAnc[ids[i]] == Rebased(t, node, np, ids[i]) && |newAnc[ids[i]]| <= MAX_DEPTH
    ensures Charted(t, node, np, ids[..i + 1], newAnc)
  {
    Prefix(ids, i);
  }
}
