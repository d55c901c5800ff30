/** Types and set facts shared by every part of the model. */
module Basics {

  datatype Option<+T> = None | Some(value: T)

  /** Table keys. The database compares them and orders candidates by them. */
  type Id = nat

  /** Milliseconds of the one clock all replicas are assumed to share. */
  type Time = nat

  /** Lease owners (random UUIDs): only equality and freshness matter. */
  type Token = nat

  /** Session names, the remote's own session ids and session secrets are only compared. */
  type Name(==, !new)
  type RemoteId(==, !new)
  type Secret(==, !new)

  /** A key from `k` on that is not in use. */
  function FreeKey(used: set<Id>, k: Id): (r: Id)
    ensures k <= r && r !in used
    decreases |used|
  {
    if k in used then FreeKey(used - {k}, k + 1) else k
  }

  lemma SubsetSize<T>(a: set<T>, b: set<T>)
    requires a <= b
    ensures |a| <= |b|
  {
    assert b == a + (b - a);
  }

  /** A list of a set's elements, each once. */
  ghost predicate Enumerates<T(!new)>(xs: seq<T>, s: set<T>) {
    (forall x :: x in xs <==> x in s) && forall j, k :: 0 <= j < k < |xs| ==> xs[j] != xs[k]
  }

  lemma {:induction false} Enumeration<T(!new)>(s: set<T>) returns (xs: seq<T>)
    ensures Enumerates(xs, s)
    decreases |s|
  {
    xs := [];
    if s != {} {
      var x :| x in s;
      var rest := Enumeration(s - {x});
      xs := [x] + rest;
    }
  }
}
