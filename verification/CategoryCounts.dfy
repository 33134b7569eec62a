/**
 Product counts per category. The service adds every node's direct count to
 the node and to each entry of its stored chain; the reference is the
 recursive sum over child links. The two agree for every node.
 */
module CategoryCounts {
  import opened Basics
  import opened CategoryTree

  type Counts = map<CatId, nat>

  function CountOf(counts: Counts, id: CatId): nat {
    if id in counts then counts[id] else 0
  }

  /** A listing of the collection: every stored node once. */
  ghost predicate Lists(all: seq<CatId>, t: Tree) {
    && (forall i :: 0 <= i < |all| ==> all[i] in t)
    && (forall id :: id in t ==> id in all)
    && (forall i, j :: 0 <= i < j < |all| ==> all[i] != all[j])
  }

  /** x counts the products of y when x is y itself or stands in y's chain. */
  predicate Covers(t: Tree, x: CatId, y: CatId)
    requires y in t
  {
    x == y || x in t[y].ancestors
  }

  /** What the chains contribute to x, over a prefix of the listing. */
  ghost function Rolled(t: Tree, direct: Counts, ys: seq<CatId>, x: CatId): nat
    requires forall y :: y in ys ==> y in t
  {
    if ys == [] then 0
    else
      var last := |ys| - 1;
      assert ys[last] in ys;
      Rolled(t, direct, ys[..last], x) + if Covers(t, x, ys[last]) then CountOf(direct, ys[last]) else 0
  }

  /** The reference: a node's own products and those of its children's subtrees. */
  ghost function SubtreeCount(t: Tree, direct: Counts, all: seq<CatId>, x: CatId): nat
    requires TreeOk(t) && Lists(all, t) && x in t
    decreases MAX_DEPTH - |t[x].ancestors|, 1, 0
  {
    assert NodeOk(t, x);
    CountOf(direct, x) + ChildrenCount(t, direct, all, all, x)
  }

  ghost function ChildrenCount(t: Tree, direct: Counts, all: seq<CatId>, cs: seq<CatId>, x: CatId): nat
    requires TreeOk(t) && Lists(all, t) && x in t
    requires forall c :: c in cs ==> c in t
    decreases MAX_DEPTH - |t[x].ancestors|, 0, |cs|
  {
    if cs == [] then 0
    else
      var last := |cs| - 1;
      assert cs[last] in cs;
      assert NodeOk(t, cs[last]);
      ChildrenCount(t, direct, all, cs[..last], x)
      + if t[cs[last]].parent == Some(x) then SubtreeCount(t, direct, all, cs[last]) else 0
  }

  /** The same sum over child links, with the chains' figure for every child. */
  ghost function ChildrenRolled(t: Tree, direct: Counts, ys: seq<CatId>, cs: seq<CatId>, x: CatId): nat
    requires (forall y :: y in ys ==> y in t) && forall c :: c in cs ==> c in t
  {
    if cs == [] then 0
    else
      var last := |cs| - 1;
      assert cs[last] in cs;
      ChildrenRolled(t, direct, ys, cs[..last], x)
      + if t[cs[last]].parent == Some(x) then Rolled(t, direct, ys, cs[last]) else 0
  }

  /** The listed children of x that cover y. */
  ghost function Carriers(t: Tree, cs: seq<CatId>, x: CatId, y: CatId): nat
    requires y in t && forall c :: c in cs ==> c in t
  {
    if cs == [] then 0
    else
      var last := |cs| - 1;
      assert cs[last] in cs;
      Carriers(t, cs[..last], x, y) + if t[cs[last]].parent == Some(x) && Covers(t, cs[last], y) then 1 else 0
  }

  /** Exchanging the two sums, one listed node y at a time. */
  lemma {:induction false} ExchangeStep(t: Tree, direct: Counts, ys: seq<CatId>, y: CatId, cs: seq<CatId>, x: CatId)
    requires (forall z :: z in ys ==> z in t) && y in t && forall c :: c in cs ==> c in t
    ensures forall z :: z in ys + [y] ==> z in t
    ensures ChildrenRolled(t, direct, ys + [y], cs, x)
         == ChildrenRolled(t, direct, ys, cs, x) + CountOf(direct, y) * Carriers(t, cs, x, y)
  {
    if cs != [] {
      var last := |cs| - 1;
      assert cs[last] in cs;
      ExchangeStep(t, direct, ys, y, cs[..last], x);
      assert (ys + [y])[..|ys|] == ys;
      var n, k := CountOf(direct, y), Carriers(t, cs[..last], x, y);
      assert n * (k + 1) == n * k + n;
    }
  }

  /** The one child of x on the way down to y. */
  ghost function NextBelow(t: Tree, x: CatId, y: CatId): CatId
    requires x in t && y in t
  {
    var i := |t[x].ancestors| + 1;
    if i < |t[y].ancestors| then t[y].ancestors[i] else y
  }

  lemma CarrierIsOnPath(t: Tree, x: CatId, y: CatId, c: CatId)
    requires TreeOk(t) && {x, y, c} <= t.Keys
    requires t[c].parent == Some(x) && Covers(t, c, y)
    ensures x in t[y].ancestors && c == NextBelow(t, x, y)
  {
    assert NodeOk(t, c);
    if c != y {
      AncestorsDistinct(t, y);
      var anc := t[y].ancestors;
      var j :| 0 <= j < |anc| && anc[j] == c;
      assert t[c].ancestors == anc[..j];
      assert anc[j - 1] == x;
    }
  }

  lemma PathHasCarrier(t: Tree, x: CatId, y: CatId)
    requires TreeOk(t) && {x, y} <= t.Keys && x in t[y].ancestors
    ensures NextBelow(t, x, y) in t
    ensures t[NextBelow(t, x, y)].parent == Some(x) && Covers(t, NextBelow(t, x, y), y)
  {
    AncestorsDistinct(t, y);
    var anc := t[y].ancestors;
    var j :| 0 <= j < |anc| && anc[j] == x;
    assert t[x].ancestors == anc[..j];
    if j + 1 < |anc| {
      assert NodeOk(t, anc[j + 1]);
      assert t[anc[j + 1]].ancestors == anc[..j + 1];
      assert anc[..j + 1][j] == x;
    } else {
      assert NodeOk(t, y);
    }
  }

  lemma {:induction false} CarriersCount(t: Tree, cs: seq<CatId>, x: CatId, y: CatId)
    requires TreeOk(t) && x in t && y in t && forall c :: c in cs ==> c in t
    requires forall i, j :: 0 <= i < j < |cs| ==> cs[i] != cs[j]
    ensures Carriers(t, cs, x, y) == if x in t[y].ancestors && NextBelow(t, x, y) in cs then 1 else 0
  {
    if cs != [] {
      var last := |cs| - 1;
      assert cs[last] in cs;
      CarriersCount(t, cs[..last], x, y);
      if t[cs[last]].parent == Some(x) && Covers(t, cs[last], y) {
        CarrierIsOnPath(t, x, y, cs[last]);
      }
      if x in t[y].ancestors {
        PathHasCarrier(t, x, y);
      }
    }
  }

  /** Over the full listing, each node strictly below x is carried by exactly one child of x. */
  lemma CarriedOnce(t: Tree, all: seq<CatId>, x: CatId, y: CatId)
    requires TreeOk(t) && Lists(all, t) && {x, y} <= t.Keys
    ensures Carriers(t, all, x, y) == if x in t[y].ancestors then 1 else 0
    ensures x in t[y].ancestors ==> x != y
  {
    CarriersCount(t, all, x, y);
    AncestorsDistinct(t, y);
    if x in t[y].ancestors {
      PathHasCarrier(t, x, y);
    }
  }

  lemma {:induction false} ChildrenRolledIsBelow(t: Tree, direct: Counts, all: seq<CatId>, ys: seq<CatId>, x: CatId)
    requires TreeOk(t) && Lists(all, t) && x in t && forall y :: y in ys ==> y in t
    ensures Rolled(t, direct, ys, x) == ChildrenRolled(t, direct, ys, all, x) + OwnRolled(direct, ys, x)
    decreases |ys|
  {
    if ys == [] {
      EmptyRolled(t, direct, all, x);
    } else {
      var last := |ys| - 1;
      assert ys[last] in ys;
      ChildrenRolledIsBelow(t, direct, all, ys[..last], x);
      OneMore(t, direct, all, ys[..last], ys[last], x);
      assert ys == ys[..last] + [ys[last]];
    }
  }

  lemma OneMore(t: Tree, direct: Counts, all: seq<CatId>, ys: seq<CatId>, y: CatId, x: CatId)
    requires TreeOk(t) && Lists(all, t) && x in t && y in t && forall z :: z in ys ==> z in t
    ensures forall z :: z in ys + [y] ==> z in t
    ensures ChildrenRolled(t, direct, ys + [y], all, x)
         == ChildrenRolled(t, direct, ys, all, x) + if x in t[y].ancestors then CountOf(direct, y) else 0
    ensures x in t[y].ancestors ==> x != y
  {
    ExchangeStep(t, direct, ys, y, all, x);
    CarriedOnce(t, all, x, y);
  }

  /** The direct count of x, once for every time the listing names it. */
  ghost function OwnRolled(direct: Counts, ys: seq<CatId>, x: CatId): nat {
    if ys == [] then 0
    else
      var last := |ys| - 1;
      OwnRolled(direct, ys[..last], x) + if ys[last] == x then CountOf(direct, x) else 0
  }

  lemma {:induction false} OwnOnce(direct: Counts, ys: seq<CatId>, x: CatId)
    requires forall i, j :: 0 <= i < j < |ys| ==> ys[i] != ys[j]
    ensures OwnRolled(direct, ys, x) == if x in ys then CountOf(direct, x) else 0
  {
    if ys != [] {
      OwnOnce(direct, ys[..|ys| - 1], x);
    }
  }

  lemma {:induction false} EmptyRolled(t: Tree, direct: Counts, cs: seq<CatId>, x: CatId)
    requires forall c :: c in cs ==> c in t
    ensures ChildrenRolled(t, direct, [], cs, x) == 0
  {
    if cs != [] {
      var last := |cs| - 1;
      assert cs[last] in cs;
      EmptyRolled(t, direct, cs[..last], x);
    }
  }

  /** Replacing every child's figure by the recursive one. */
  lemma {:induction false} ChildrenAgree(t: Tree, direct: Counts, all: seq<CatId>, cs: seq<CatId>, x: CatId)
    requires TreeOk(t) && Lists(all, t) && x in t && forall c :: c in cs ==> c in t
    ensures ChildrenCount(t, direct, all, cs, x) == ChildrenRolled(t, direct, all, cs, x)
    decreases MAX_DEPTH - |t[x].ancestors|, 0, |cs|
  {
    if cs != [] {
      var last := |cs| - 1;
      assert cs[last] in cs;
      assert NodeOk(t, cs[last]);
      ChildrenAgree(t, direct, all, cs[..last], x);
      if t[cs[last]].parent == Some(x) {
        RollUpIsSubtreeCount(t, direct, all, cs[last]);
      }
    }
  }

  /** The chain-based roll-up equals the recursive count over child links, for every node. */
  lemma {:induction false} RollUpIsSubtreeCount(t: Tree, direct: Counts, all: seq<CatId>, x: CatId)
    requires TreeOk(t) && Lists(all, t) && x in t
    ensures Rolled(t, direct, all, x) == SubtreeCount(t, direct, all, x)
    decreases MAX_DEPTH - |t[x].ancestors|, 1, 0
  {
    assert NodeOk(t, x);
    ChildrenAgree(t, direct, all, all, x);
    ChildrenRolledIsBelow(t, direct, all, all, x);
    OwnOnce(direct, all, x);
  }
}
