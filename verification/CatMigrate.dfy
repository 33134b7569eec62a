/**
 The one-off category migration: resolve parent pointers from the imported
 legacy numbers, then rebuild every ancestor chain by a bounded walk.
 */
module CatMigrate {
  import opened Basics
  import opened Forest
  import opened CategoryTree

  /** Cycle guard of the walk. */
  const WALK_LIMIT := 16

  datatype CatNode = CatNode(legacyId: Option<int>, parentLegacyId: Option<int>, cat: Category)

  type Collection = map<Node, CatNode>

  /** The unique index on legacyId. */
  ghost predicate LegacyUnique(docs: Collection) {
    forall a, b :: a in docs && b in docs && docs[a].legacyId.Some? && docs[a].legacyId == docs[b].legacyId ==> a == b
  }

  ghost predicate Owns(docs: Collection, id: Node, legacy: int) {
    id in docs && docs[id].legacyId == Some(legacy)
  }

  /** Pass 1 for one node: keep a parent already set, else look the legacy number up. */
  ghost function ResolvedParent(docs: Collection, c: CatNode): Option<Node> {
    if c.cat.parent.Some? || c.parentLegacyId.None? then c.cat.parent
    else if p :| Owns(docs, p, c.parentLegacyId.value) then Some(p)
    else None
  }

  ghost function ResolvedParents(docs: Collection): Parents {
    map id | id in docs :: ResolvedParent(docs, docs[id])
  }

  /** Pass 2 for one node: at most `fuel` steps up, root first. */
  function Walk(par: Parents, x: Node, fuel: nat): seq<Node>
    requires x in par
    decreases fuel
  {
    if fuel == 0 || Up(par, x).None? then []
    else Walk(par, Up(par, x).value, fuel - 1) + [Up(par, x).value]
  }

  ghost function Reindexed(par: Parents, c: CatNode, id: Node): CatNode
    requires id in par
  {
    var anc := Walk(par, id, WALK_LIMIT);
    c.(cat := c.cat.(parent := par[id], ancestors := anc, depth := |anc|))
  }

  /** The collection an applied run leaves behind. */
  ghost function Migrated(docs: Collection): Collection {
    var par := ResolvedParents(docs);
    map id | id in docs :: Reindexed(par, docs[id], id)
  }

  lemma {:induction false} WalkIsChain(par: Parents, x: Node, chain: seq<Node>, fuel: nat)
    requires RootChain(par, x, chain) && |chain| <= fuel
    ensures Walk(par, x, fuel) == chain
    decreases fuel
  {
    if chain != [] {
      var last := |chain| - 1;
      WalkIsChain(par, chain[last], chain[..last], fuel - 1);
      assert chain == chain[..last] + [chain[last]];
    }
  }

  lemma {:induction false} ShortWalkIsChain(par: Parents, x: Node, fuel: nat)
    requires x in par && |Walk(par, x, fuel)| < fuel
    ensures RootChain(par, x, Walk(par, x, fuel))
    decreases fuel
  {
    if Up(par, x).Some? {
      var p := Up(par, x).value;
      ShortWalkIsChain(par, p, fuel - 1);
      assert Walk(par, x, fuel)[..|Walk(par, p, fuel - 1)|] == Walk(par, p, fuel - 1);
    }
  }

  lemma {:induction false} WalkLength(par: Parents, x: Node, fuel: nat)
    requires x in par
    ensures |Walk(par, x, fuel)| <= fuel
    decreases fuel
  {
    if fuel > 0 && Up(par, x).Some? {
      WalkLength(par, Up(par, x).value, fuel - 1);
    }
  }

  /** The bounded walk is exact for a node precisely when its true chain fits the bound. */
  lemma WalkExactIffChainFits(par: Parents, x: Node)
    requires x in par
    ensures RootChain(par, x, Walk(par, x, WALK_LIMIT))
       <==> exists chain :: RootChain(par, x, chain) && |chain| <= WALK_LIMIT
    ensures forall chain :: RootChain(par, x, chain) && |chain| <= WALK_LIMIT ==> Walk(par, x, WALK_LIMIT) == chain
  {
    WalkLength(par, x, WALK_LIMIT);
    forall chain | RootChain(par, x, chain) && |chain| <= WALK_LIMIT
      ensures Walk(par, x, WALK_LIMIT) == chain
    {
      WalkIsChain(par, x, chain, WALK_LIMIT);
    }
  }

  /** On a cycle there is no chain at all: the walk just stops at its limit. */
  lemma {:induction false} WalkOnCycle(par: Parents, x: Node, n: nat, fuel: nat)
    requires n > 0 && Climbs(par, x, x, n)
    ensures !exists chain :: RootChain(par, x, chain)
    ensures |Walk(par, x, fuel)| == fuel
  {
    forall chain
      ensures !RootChain(par, x, chain)
    {
      if RootChain(par, x, chain) {
        ChainHasNoCycle(par, x, chain, n);
      }
    }
    WalkLength(par, x, fuel);
    if |Walk(par, x, fuel)| < fuel {
      ShortWalkIsChain(par, x, fuel);
    }
  }

  lemma ParentAgain(docs: Collection, id: Node)
    requires id in docs
    ensures ResolvedParent(Migrated(docs), Migrated(docs)[id]) == ResolvedParent(docs, docs[id])
  {
    var again, legacy := Migrated(docs), docs[id].parentLegacyId;
    assert again[id].cat.parent == ResolvedParent(docs, docs[id]);
    if again[id].cat.parent.None? && legacy.Some? {
      assert forall p :: Owns(again, p, legacy.value) ==> Owns(docs, p, legacy.value);
    }
  }

  /** A second run finds the parents of the first, and so rebuilds the same index. */
  lemma MigrateTwice(docs: Collection)
    ensures Migrated(Migrated(docs)) == Migrated(docs)
  {
    var par := ResolvedParents(docs);
    forall id | id in docs
      ensures ResolvedParents(Migrated(docs))[id] == par[id]
    {
      ParentAgain(docs, id);
    }
    assert ResolvedParents(Migrated(docs)) == par;
  }

  function TreeOf(docs: Collection): Tree {
    map id | id in docs :: docs[id].cat
  }

  /** One migrated node whose true chain fits the live tree satisfies the service's rule. */
  lemma MigratedNodeOk(docs: Collection, id: Node, chain: seq<Node>)
    requires id in docs && RootChain(ResolvedParents(docs), id, chain) && |chain| <= MAX_DEPTH
    requires ResolvedParents(docs)[id].Some? ==>
               && ResolvedParents(docs)[id].value in docs
               && docs[ResolvedParents(docs)[id].value].cat.rootDomain == docs[id].cat.rootDomain
    ensures NodeOk(TreeOf(Migrated(docs)), id)
  {
    var par, t := ResolvedParents(docs), TreeOf(Migrated(docs));
    MigratedChain(docs, id, chain);
    if par[id].Some? {
      var last := |chain| - 1;
      MigratedChain(docs, par[id].value, chain[..last]);
      assert chain == chain[..last] + [chain[last]];
    }
  }

  lemma MigratedChain(docs: Collection, id: Node, chain: seq<Node>)
    requires id in docs && RootChain(ResolvedParents(docs), id, chain) && |chain| <= WALK_LIMIT
    ensures var c := TreeOf(Migrated(docs))[id];
            && c.ancestors == chain && c.depth == |chain| && c.parent == ResolvedParents(docs)[id]
            && c.rootDomain == docs[id].cat.rootDomain
  {
    WalkIsChain(ResolvedParents(docs), id, chain, WALK_LIMIT);
  }

  /** Every node has a chain no longer than the live tree allows. */
  ghost predicate ChainsFit(par: Parents) {
    forall id :: id in par ==> exists chain :: RootChain(par, id, chain) && |chain| <= MAX_DEPTH
  }

  /** No parent dangles, and one domain runs along every edge. */
  ghost predicate EdgesFit(docs: Collection) {
    forall id :: id in docs && ResolvedParents(docs)[id].Some? ==>
      && ResolvedParents(docs)[id].value in docs
      && docs[ResolvedParents(docs)[id].value].cat.rootDomain == docs[id].cat.rootDomain
  }

  /** A tree the service accepts comes only from a relation that fits it. */
  lemma TreeOnlyIfFits(docs: Collection)
    requires TreeOk(TreeOf(Migrated(docs)))
    ensures ChainsFit(ResolvedParents(docs)) && EdgesFit(docs)
  {
    var par, t := ResolvedParents(docs), TreeOf(Migrated(docs));
    assert ParentsOf(t) == par;
    forall id | id in par
      ensures exists chain :: RootChain(par, id, chain) && |chain| <= MAX_DEPTH
    {
      ChainFromTree(t, id);
      assert NodeOk(t, id);
      assert RootChain(par, id, t[id].ancestors);
    }
    forall id | id in docs && par[id].Some?
      ensures par[id].value in docs && docs[par[id].value].cat.rootDomain == docs[id].cat.rootDomain
    {
      assert NodeOk(t, id);
    }
  }

  /**
   An applied run leaves a collection the category service accepts as its own
   exactly when in the resolved relation no parent dangles, no chain is longer than
   the live tree allows, and one domain runs along every edge.
   */
  lemma MigrationBuildsTree(docs: Collection)
    ensures TreeOk(TreeOf(Migrated(docs))) <==> ChainsFit(ResolvedParents(docs)) && EdgesFit(docs)
  {
    if ChainsFit(ResolvedParents(docs)) && EdgesFit(docs) {
      forall id | id in docs
        ensures NodeOk(TreeOf(Migrated(docs)), id)
      {
        var chain :| RootChain(ResolvedParents(docs), id, chain) && |chain| <= MAX_DEPTH;
        MigratedNodeOk(docs, id, chain);
      }
    }
    if TreeOk(TreeOf(Migrated(docs))) {
      TreeOnlyIfFits(docs);
    }
  }

  /** Element by element, as the migration compares stored and computed chains. */
  method SameAncestors(a: seq<Node>, b: seq<Node>) returns (same: bool)
    ensures same <==> a == b
  {
    if |a| != |b| {
      return false;
    }
    for i := 0 to |a|
      invariant a[..i] == b[..i]
    {
      if a[i] != b[i] {
        return false;
      }
      Prefix(a, i);
      Prefix(b, i);
    }
    Prefix(a, |a|);
    Prefix(b, |b|);
    return true;
  }

  /** A loaded node after pass 1: the stored one, but for a parent that was missing. */
  ghost predicate Resolved(stored: CatNode, node: CatNode, parent: Option<Node>) {
    && node == stored.(cat := stored.cat.(parent := parent))
    && (stored.cat.parent.Some? ==> parent == stored.cat.parent)
  }

  /** A load order: every document once. */
  ghost predicate Listing(docs: Collection, ids: seq<Node>) {
    && (forall id :: id in docs <==> id in ids)
    && (forall i :: 0 <= i < |ids| ==> ids[i] in docs)
    && (forall i, j :: 0 <= i < j < |ids| ==> ids[i] != ids[j])
  }

  /** byId finds the position of each of the first n ids, and knows nothing else. */
  ghost predicate Positions(ids: seq<Node>, n: nat, byId: map<Node, nat>)
    requires n <= |ids|
  {
    && (forall k :: 0 <= k < n ==> ids[k] in byId && byId[ids[k]] == k)
    && (forall id :: id in byId ==> byId[id] < n && ids[byId[id]] == id)
  }

  /** The loaded documents, addressed through their ids. */
  ghost predicate Loaded(cats: seq<CatNode>, ids: seq<Node>, byId: map<Node, nat>, par: Parents) {
    && |cats| == |ids|
    && Positions(ids, |ids|, byId)
    && par.Keys == byId.Keys
    && (forall i :: 0 <= i < |ids| ==> ids[i] in par && par[ids[i]] == cats[i].cat.parent)
  }

  /** One step of the walk over loaded documents: up to a known parent, or stop. */
  lemma ClimbOne(cats: seq<CatNode>, ids: seq<Node>, byId: map<Node, nat>, par: Parents, cur: nat)
    requires cur < |cats| && Loaded(cats, ids, byId, par)
    ensures ids[cur] in par
    ensures var parent := cats[cur].cat.parent;
            if parent.None? || parent.value !in byId then Up(par, ids[cur]).None?
            else byId[parent.value] < |cats| && ids[byId[parent.value]] == parent.value && Up(par, ids[cur]) == parent
  {
  }

  /** So far the walk from x has climbed to cur, collecting the chain. */
  ghost predicate Climbed(par: Parents, x: Node, fuel: nat, cur: Node, left: nat, chain: seq<Node>) {
    x in par && cur in par && Walk(par, x, fuel) == Walk(par, cur, left) + chain
  }

  lemma ClimbStarts(par: Parents, x: Node, fuel: nat)
    requires x in par
    ensures Climbed(par, x, fuel, x, fuel, [])
  {
    assert Walk(par, x, fuel) == Walk(par, x, fuel) + [];
  }

  lemma ClimbOn(par: Parents, x: Node, fuel: nat, cur: Node, left: nat, chain: seq<Node>)
    requires Climbed(par, x, fuel, cur, left, chain)
    ensures left == 0 || Up(par, cur).None? ==> chain == Walk(par, x, fuel)
    ensures left > 0 && Up(par, cur).Some? ==> Climbed(par, x, fuel, Up(par, cur).value, left - 1, [Up(par, cur).value] + chain)
  {
  }

  /** Walks the parent chain of one loaded node, prepending as it climbs. */
  method AncestorsOf(cats: array<CatNode>, ids: seq<Node>, byId: map<Node, nat>, start: nat, ghost par: Parents)
    returns (chain: seq<Node>)
    requires start < cats.Length && Loaded(cats[..], ids, byId, par)
    ensures chain == Walk(par, ids[start], WALK_LIMIT)
  {
    chain := [];
    var cur, steps := start, 0;
    ClimbOne(cats[..], ids, byId, par, cur);
    ClimbStarts(par, ids[start], WALK_LIMIT);
    while steps < WALK_LIMIT
      invariant 0 <= steps <= WALK_LIMIT && 0 <= cur < cats.Length
      invariant Climbed(par, ids[start], WALK_LIMIT, ids[cur], WALK_LIMIT - steps, chain)
    {
      ClimbOne(cats[..], ids, byId, par, cur);
      ClimbOn(par, ids[start], WALK_LIMIT, ids[cur], WALK_LIMIT - steps, chain);
      if cats[cur].cat.parent.None? {
        return;
      }
      var pid := cats[cur].cat.parent.value;
      if pid !in byId {
        return;
      }
      chain := [pid] + chain;
      cur, steps := byId[pid], steps + 1;
    }
    ClimbOn(par, ids[start], WALK_LIMIT, ids[cur], 0, chain);
  }

  lemma SameOnListing(docs: Collection, ids: seq<Node>, a: Collection, b: Collection)
    requires Listing(docs, ids) && a.Keys == b.Keys == docs.Keys
    requires forall i :: 0 <= i < |ids| ==> a[ids[i]] == b[ids[i]]
    ensures a == b
  {
    forall id | id in docs
      ensures a[id] == b[id]
    {
      var i :| 0 <= i < |ids| && ids[i] == id;
    }
  }

  /** After pass 1 the loaded nodes carry the resolved relation, and pass 2 will write the goal. */
  lemma NowLoaded(docs: Collection, ids: seq<Node>, cats: seq<CatNode>, byId: map<Node, nat>)
    requires Listing(docs, ids) && |cats| == |ids| && Positions(ids, |ids|, byId)
    requires forall i :: 0 <= i < |ids| ==> Resolved(docs[ids[i]], cats[i], ResolvedParent(docs, docs[ids[i]]))
    ensures Loaded(cats, ids, byId, ResolvedParents(docs)) && Migrated(docs).Keys == docs.Keys
    ensures forall i :: 0 <= i < |ids| ==> Resolved(docs[ids[i]], cats[i], ResolvedParents(docs)[ids[i]])
    ensures forall i :: 0 <= i < |ids| ==>
              Migrated(docs)[ids[i]] == Reindexed(ResolvedParents(docs), docs[ids[i]], ids[i])
  {
    assert forall id :: id in byId ==> id in docs;
    assert forall id :: id in docs ==> id in ids;
  }

  // ----- what an applied run leaves, told over the documents -----

  /** A parent already set stays; a missing one is the node that owns the legacy number, if any does. */
  ghost predicate ParentFound(docs: Collection, c: CatNode, parent: Option<Node>) {
    if c.cat.parent.Some? then parent == c.cat.parent
    else if c.parentLegacyId.Some? && exists p :: p in docs && docs[p].legacyId == c.parentLegacyId
    then parent.Some? && parent.value in docs && docs[parent.value].legacyId == c.parentLegacyId
    else parent.None?
  }

  /** The chain climbs from parent to parent, for at most sixteen steps, and stops early only at a node without a known parent. */
  ghost predicate ChainClimbs(docs: Collection, id: Node) {
    id in docs &&
    var c := docs[id].cat;
    var anc := c.ancestors;
    && c.depth == |anc| <= 16 && (forall k :: 0 <= k < |anc| ==> anc[k] in docs)
    && (anc != [] ==> c.parent == Some(anc[|anc| - 1]))
    && (forall k :: 0 < k < |anc| ==> docs[anc[k]].cat.parent == Some(anc[k - 1]))
    && (|anc| < 16 ==>
          var top := docs[if anc == [] then id else anc[0]].cat.parent;
          top.None? || top.value !in docs)
  }

  /** Every node has its parent and its chain, and is otherwise as it was. */
  ghost predicate RunTold(b: Collection, a: Collection) {
    && a.Keys == b.Keys
    && forall id :: id in b ==>
         && ParentFound(b, b[id], a[id].cat.parent) && ChainClimbs(a, id)
         && a[id] == b[id].(cat := b[id].cat.(parent := a[id].cat.parent, ancestors := a[id].cat.ancestors, depth := a[id].cat.depth))
  }

  /** What a bounded walk collects, over the relation alone. */
  ghost predicate WalkClimbs(par: Parents, x: Node, anc: seq<Node>, fuel: nat) {
    && x in par && |anc| <= fuel && (forall k :: 0 <= k < |anc| ==> anc[k] in par)
    && (anc != [] ==> par[x] == Some(anc[|anc| - 1]))
    && (forall k :: 0 < k < |anc| ==> par[anc[k]] == Some(anc[k - 1]))
    && (|anc| < fuel ==> Up(par, if anc == [] then x else anc[0]).None?)
  }

  lemma {:induction false} WalkDoesClimb(par: Parents, x: Node, fuel: nat)
    requires x in par
    ensures WalkClimbs(par, x, Walk(par, x, fuel), fuel)
    decreases fuel
  {
    if fuel > 0 && Up(par, x).Some? {
      var p := Up(par, x).value;
      WalkDoesClimb(par, p, fuel - 1);
      WalkOneMore(par, x, p, Walk(par, p, fuel - 1), fuel - 1);
    }
  }

  lemma WalkOneMore(par: Parents, x: Node, p: Node, anc: seq<Node>, fuel: nat)
    requires x in par && Up(par, x) == Some(p) && WalkClimbs(par, p, anc, fuel)
    ensures WalkClimbs(par, x, anc + [p], fuel + 1)
  {
    var all := anc + [p];
    forall k | 0 < k < |all|
      ensures par[all[k]] == Some(all[k - 1])
    {
      if k == |anc| {
        assert all[k] == p && all[k - 1] == anc[|anc| - 1];
      }
    }
  }

  lemma MigratedTold(docs: Collection)
    ensures RunTold(docs, Migrated(docs))
  {
    var par := ResolvedParents(docs);
    forall id | id in docs
      ensures ParentFound(docs, docs[id], par[id]) && ChainClimbs(Migrated(docs), id)
    {
      ResolvedFound(docs, id);
      WalkDoesClimb(par, id, WALK_LIMIT);
      ChainTold(docs, id, Walk(par, id, WALK_LIMIT));
    }
  }

  lemma ResolvedFound(docs: Collection, id: Node)
    requires id in docs
    ensures ParentFound(docs, docs[id], ResolvedParents(docs)[id])
  {
    var c := docs[id];
    if c.cat.parent.None? && c.parentLegacyId.Some? {
      assert forall p :: Owns(docs, p, c.parentLegacyId.value) <==> p in docs && docs[p].legacyId == c.parentLegacyId;
    }
  }

  lemma ChainTold(docs: Collection, id: Node, anc: seq<Node>)
    requires id in docs && anc == Walk(ResolvedParents(docs), id, WALK_LIMIT)
    requires WalkClimbs(ResolvedParents(docs), id, anc, WALK_LIMIT)
    ensures ChainClimbs(Migrated(docs), id)
  {
    var a := Migrated(docs);
    assert a[id].cat.ancestors == anc;
    assert forall x :: x in docs ==> a[x].cat.parent == ResolvedParents(docs)[x];
  }

  class Migration {
    var docs: Collection

    constructor (imported: Collection)
      ensures docs == imported
    {
      docs := imported;
    }

    /** Both passes over the collection in load order; a dry run writes nothing. */
    method MigrateCategories(ids: seq<Node>, apply: bool)
      requires LegacyUnique(docs) && Listing(docs, ids)
      modifies this
      ensures docs == if apply then Migrated(old(docs)) else old(docs)
      ensures apply ==> RunTold(old(docs), docs)
    {
      TwoPasses(ids, apply);
      MigratedTold(old(docs));
    }

    method TwoPasses(ids: seq<Node>, apply: bool)
      requires LegacyUnique(docs) && Listing(docs, ids)
      modifies this
      ensures docs == if apply then Migrated(old(docs)) else old(docs)
    {
      var cats := Load(ids);
      var byId, byLegacy := IndexNodes(cats, ids);
      ResolveInPlace(cats, ids, byLegacy);
      NowLoaded(docs, ids, cats[..], byId);
      ghost var start, goal := docs, Migrated(docs);
      WriteIndex(cats, ids, byId, apply, ResolvedParents(docs), goal);
      SameOnListing(start, ids, docs, if apply then goal else start);
    }

    method Load(ids: seq<Node>) returns (cats: array<CatNode>)
      requires Listing(docs, ids)
      ensures fresh(cats) && cats.Length == |ids|
      ensures forall i :: 0 <= i < |ids| ==> cats[i] == docs[ids[i]]
    {
      assert forall i :: 0 <= i < |ids| ==> ids[i] in ids;
      cats := new CatNode[|ids|](i requires 0 <= i < |ids| && ids[i] in docs reads this => docs[ids[i]]);
    }

    /** The two lookup tables, by id and by legacy number. */
    method IndexNodes(cats: array<CatNode>, ids: seq<Node>) returns (byId: map<Node, nat>, byLegacy: map<int, Node>)
      requires Listing(docs, ids) && cats.Length == |ids|
      requires forall i :: 0 <= i < |ids| ==> cats[i] == docs[ids[i]]
      ensures Positions(ids, |ids|, byId)
      ensures forall n :: n in byLegacy ==> Owns(docs, byLegacy[n], n)
      ensures forall n, p :: Owns(docs, p, n) ==> n in byLegacy
    {
      byLegacy := map[];
      byId := map[];
      for i := 0 to |ids|
        invariant Positions(ids, i, byId)
        invariant forall n :: n in byLegacy ==> Owns(docs, byLegacy[n], n)
        invariant forall k :: 0 <= k < i && docs[ids[k]].legacyId.Some? ==> docs[ids[k]].legacyId.value in byLegacy
      {
        byId := byId[ids[i] := i];
        assert ids[i] in ids;
        if cats[i].legacyId.Some? {
          byLegacy := byLegacy[cats[i].legacyId.value := ids[i]];
        }
      }
      assert forall p :: p in docs ==> p in ids;
    }

    /** Sets missing parents on the loaded nodes; nothing else changes. */
    method ResolveInPlace(cats: array<CatNode>, ids: seq<Node>, byLegacy: map<int, Node>)
      requires LegacyUnique(docs) && Listing(docs, ids) && cats.Length == |ids|
      requires forall i :: 0 <= i < |ids| ==> cats[i] == docs[ids[i]]
      requires forall n :: n in byLegacy ==> Owns(docs, byLegacy[n], n)
      requires forall n, p :: Owns(docs, p, n) ==> n in byLegacy
      modifies cats
      ensures forall i :: 0 <= i < |ids| ==>
                Resolved(docs[ids[i]], cats[i], ResolvedParent(docs, docs[ids[i]]))
    {
      for i := 0 to |ids|
        invariant forall k :: i <= k < |ids| ==> cats[k] == docs[ids[k]]
        invariant forall k :: 0 <= k < i ==> Resolved(docs[ids[k]], cats[k], ResolvedParent(docs, docs[ids[k]]))
      {
        var c := cats[i];
        if c.cat.parent.None? && c.parentLegacyId.Some? {
          var n := c.parentLegacyId.value;
          if n in byLegacy {
            assert Owns(docs, byLegacy[n], n);
            cats[i] := c.(cat := c.cat.(parent := Some(byLegacy[n])));
          }
        }
      }
    }

    /** Compares each computed index with the stored one and writes the difference. */
    method WriteIndex(cats: array<CatNode>, ids: seq<Node>, byId: map<Node, nat>, apply: bool,
                      ghost par: Parents, ghost goal: Collection)
      requires cats.Length == |ids| && goal.Keys == docs.Keys && Loaded(cats[..], ids, byId, par)
      requires forall i :: 0 <= i < |ids| ==> ids[i] in docs
      requires forall i :: 0 <= i < |ids| ==> Resolved(docs[ids[i]], cats[i], par[ids[i]])
      requires forall i :: 0 <= i < |ids| ==> goal[ids[i]] == Reindexed(par, docs[ids[i]], ids[i])
      modifies this
      ensures docs.Keys == old(docs).Keys
      ensures forall i :: 0 <= i < |ids| ==> docs[ids[i]] == if apply then goal[ids[i]] else old(docs)[ids[i]]
    {
      for i := 0 to |ids|
        invariant Written(old(docs), docs, ids, i, goal, apply)
      {
        assert Resolved(old(docs)[ids[i]], cats[i], par[ids[i]]);
        var doc := NodeUpdate(cats, ids, byId, i, docs[ids[i]], par);
        WrittenOneMore(old(docs), docs, ids, i, goal, apply, doc);
        if apply {
          docs := docs[ids[i] := doc];
        }
      }
    }
  }

  /** The first i listed documents are as they should be, the others as they were. */
  ghost predicate Written(before: Collection, now: Collection, ids: seq<Node>, i: nat, goal: Collection, apply: bool) {
    && i <= |ids| && now.Keys == before.Keys == goal.Keys && (forall j :: 0 <= j < |ids| ==> ids[j] in before)
    && (forall j :: 0 <= j < i ==> now[ids[j]] == if apply then goal[ids[j]] else before[ids[j]])
    && (forall j :: i <= j < |ids| ==> now[ids[j]] == before[ids[j]])
  }

  lemma WrittenOneMore(before: Collection, now: Collection, ids: seq<Node>, i: nat, goal: Collection, apply: bool, doc: CatNode)
    requires Written(before, now, ids, i, goal, apply) && i < |ids| && doc == goal[ids[i]]
    requires forall j, k :: 0 <= j < k < |ids| ==> ids[j] != ids[k]
    ensures Written(before, if apply then now[ids[i] := doc] else now, ids, i + 1, goal, apply)
  {
  }

  /** One stored node after the differences are written. */
  method NodeUpdate(cats: array<CatNode>, ids: seq<Node>, byId: map<Node, nat>, i: nat, stored: CatNode, ghost par: Parents)
    returns (doc: CatNode)
    requires i < cats.Length && Loaded(cats[..], ids, byId, par)
    requires ids[i] in par && Resolved(stored, cats[i], par[ids[i]])
    ensures doc == Reindexed(par, stored, ids[i])
  {
    var anc := AncestorsOf(cats, ids, byId, i, par);
    var cat := stored.cat;
    var same := SameAncestors(cats[i].cat.ancestors, anc);
    if !same {
      cat := cat.(ancestors := anc);
    }
    if cats[i].cat.depth != |anc| {
      cat := cat.(depth := |anc|);
    }
    if cats[i].cat.parent.Some? {
      cat := cat.(parent := cats[i].cat.parent);
    }
    doc := stored.(cat := cat);
  }
}
