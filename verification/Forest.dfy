/**
 The plain parent relation: a finite map from a node to its parent pointer.
 Category trees and the category migration both store indexes computed from
 it, and both are judged against the notions defined here, none of which
 mentions an index.
 */
module Forest {
  import opened Basics

  type Node = nat
  type Parents = map<Node, Option<Node>>

  /** The parent of x, when x has one and it resolves to a stored node. */
  function Up(par: Parents, x: Node): Option<Node>
    requires x in par
  {
    match par[x]
    case None => None
    case Some(p) => if p in par then Some(p) else None
  }

  /** Following n parent pointers from x arrives at top. */
  ghost predicate Climbs(par: Parents, x: Node, top: Node, n: nat)
    decreases n
  {
    x in par &&
    if n == 0 then x == top
    else Up(par, x).Some? && Climbs(par, Up(par, x).value, top, n - 1)
  }

  /** Reflexive-transitive reachability over parent pointers. */
  ghost predicate Reaches(par: Parents, x: Node, top: Node) {
    exists n: nat :: Climbs(par, x, top, n)
  }

  ghost predicate Acyclic(par: Parents) {
    forall x, n: nat :: n > 0 ==> !Climbs(par, x, x, n)
  }

  /** chain is exactly the list root, ..., parent of the nodes above x. */
  ghost predicate RootChain(par: Parents, x: Node, chain: seq<Node>)
    decreases |chain|
  {
    x in par &&
    if chain == [] then Up(par, x).None?
    else
      var last := |chain| - 1;
      Up(par, x) == Some(chain[last]) && RootChain(par, chain[last], chain[..last])
  }

  /** Each chain entry is the node reached after the matching number of steps. */
  lemma {:induction false} ChainEntry(par: Parents, x: Node, chain: seq<Node>, i: nat)
    requires RootChain(par, x, chain) && i < |chain|
    ensures Climbs(par, x, chain[i], |chain| - i)
    decreases |chain|
  {
    var last := |chain| - 1;
    if i < last {
      ChainEntry(par, chain[last], chain[..last], i);
    } else {
      assert Climbs(par, chain[last], chain[last], 0);
    }
  }

  /** A climb from x ends inside its chain, at the entry fixed by its length. */
  lemma {:induction false} ClimbIsInChain(par: Parents, x: Node, chain: seq<Node>, top: Node, n: nat)
    requires RootChain(par, x, chain) && Climbs(par, x, top, n)
    ensures n <= |chain|
    ensures if n == 0 then top == x else top == chain[|chain| - n]
    decreases n
  {
    if n > 0 {
      var last := |chain| - 1;
      ClimbIsInChain(par, chain[last], chain[..last], top, n - 1);
    }
  }

  /** The chain of a node is unique. */
  lemma {:induction false} ChainUnique(par: Parents, x: Node, a: seq<Node>, b: seq<Node>)
    requires RootChain(par, x, a) && RootChain(par, x, b)
    ensures a == b
    decreases |a|
  {
    if a != [] {
      var i, j := |a| - 1, |b| - 1;
      ChainUnique(par, a[i], a[..i], b[..j]);
      assert a == a[..i] + [a[i]] && b == b[..j] + [b[j]];
    }
  }

  /** Reachability is membership in the chain: the index answers the relation. */
  lemma ReachesIffInChain(par: Parents, x: Node, chain: seq<Node>, top: Node)
    requires RootChain(par, x, chain)
    ensures Reaches(par, x, top) <==> x == top || top in chain
  {
    if Reaches(par, x, top) {
      var n: nat :| Climbs(par, x, top, n);
      ClimbIsInChain(par, x, chain, top, n);
    }
    if x == top {
      assert Climbs(par, x, top, 0);
    }
    if top in chain {
      var i :| 0 <= i < |chain| && chain[i] == top;
      ChainEntry(par, x, chain, i);
    }
  }

  /** A node that has a chain is not above itself. */
  lemma ChainHasNoCycle(par: Parents, x: Node, chain: seq<Node>, n: nat)
    requires RootChain(par, x, chain) && n > 0
    ensures !Climbs(par, x, x, n)
  {
    if Climbs(par, x, x, n) {
      ClimbIsInChain(par, x, chain, x, n);
      PrefixChain(par, x, chain, |chain| - n);
      ChainUnique(par, x, chain, chain[..|chain| - n]);
    }
  }

  /** A prefix of a chain is the chain of the node that follows it. */
  lemma {:induction false} PrefixChain(par: Parents, x: Node, chain: seq<Node>, i: nat)
    requires RootChain(par, x, chain) && i < |chain|
    ensures RootChain(par, chain[i], chain[..i])
    decreases |chain|
  {
    var last := |chain| - 1;
    if i < last {
      PrefixChain(par, chain[last], chain[..last], i);
      assert chain[..last][..i] == chain[..i];
    }
  }
}
