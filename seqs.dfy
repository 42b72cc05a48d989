/** Sequence helpers shared by the store, the username list and the inviter. */
module Seqs {

  datatype Option<T> = None | Some(value: T)

  /** The elements of a sequence, as Python's `set(xs)` gives them. */
  function ToSet<T>(s: seq<T>): set<T>
  {
    set x | x in s
  }

  lemma ToSetAppend<T>(a: seq<T>, b: seq<T>)
    ensures ToSet(a + b) == ToSet(a) + ToSet(b)
  {
  }

  predicate Distinct<T(==)>(s: seq<T>)
  {
    forall i, j :: 0 <= i < j < |s| ==> s[i] != s[j]
  }

  /** Python's `xs[k:]` for a non-negative `k`: empty once `k` passes the end. */
  function Drop<T>(xs: seq<T>, k: nat): seq<T>
  {
    if k <= |xs| then xs[k..] else []
  }

  /** Flattening of a sequence of sequences, front to back. */
  function Concat<T>(xss: seq<seq<T>>): seq<T>
  {
    if xss == [] then [] else xss[0] + Concat(xss[1..])
  }

  /** Flattening with one more sequence at the back appends that sequence. */
  lemma {:induction false} ConcatSnoc<T>(xss: seq<seq<T>>, xs: seq<T>)
    ensures Concat(xss + [xs]) == Concat(xss) + xs
  {
    if xss == [] {
      assert [xs][1..] == [];
    } else {
      assert (xss + [xs])[1..] == xss[1..] + [xs];
      ConcatSnoc(xss[1..], xs);
    }
  }

  /**
   * `list(some_set)`: every element exactly once, in an order the language
   * leaves unspecified (the choice below is arbitrary on purpose).
   */
  method SetToSeq<T(==)>(s: set<T>) returns (r: seq<T>)
    ensures Distinct(r)
    ensures ToSet(r) == s
  {
    r := [];
    var rest := s;
    while rest != {}
      invariant Distinct(r)
      invariant ToSet(r) + rest == s
      invariant ToSet(r) !! rest
      decreases rest
    {
      var x :| x in rest;
      r := r + [x];
      rest := rest - {x};
    }
  }
}
