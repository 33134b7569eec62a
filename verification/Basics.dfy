/** Shared datatypes and two facts about finite sets. */
module Basics {

  datatype Option<+T> = None | Some(value: T)

  datatype Result<+T, +E> = Ok(value: T) | Err(error: E)

  /** Times and durations, in seconds. */
  type Time = int

  const MINUTE: Time := 60

  function Elements<T>(s: seq<T>): set<T> {
    set x | x in s
  }

  lemma ElementsGrow<T>(s: seq<T>, x: T)
    ensures Elements(s + [x]) == Elements(s) + {x}
  {
  }

  /** A subset of a finite set is no larger, and a proper subset is smaller. */
  lemma SubsetSize<T>(a: set<T>, b: set<T>)
    requires a <= b
    ensures |a| <= |b|
    ensures a != b ==> |a| < |b|
  {
    assert b == a + (b - a);
    assert a != b ==> b - a != {};
  }

  /** A prefix grows by its next element; the full prefix is the sequence. */
  lemma Prefix<T>(s: seq<T>, i: nat)
    requires i <= |s|
    ensures i < |s| ==> s[..i + 1] == s[..i] + [s[i]]
    ensures s[..|s|] == s
  {
  }

  /** No finite set of numbers holds them all, so a new document id always exists. */
  lemma FreshId(used: set<nat>) returns (id: nat)
    ensures id !in used
  {
    if used == {} {
      id := 0;
    } else {
      var top := Largest(used);
      id := top + 1;
    }
  }

  lemma Largest(s: set<nat>) returns (top: nat)
    requires s != {}
    ensures top in s && forall x :: x in s ==> x <= top
  {
    var x :| x in s;
    if s == {x} {
      top := x;
    } else {
      assert s == (s - {x}) + {x};
      var rest := Largest(s - {x});
      top := if x > rest then x else rest;
    }
  }
}
