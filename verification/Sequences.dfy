/** Sequences of numbered things: no repetitions, taking one out, taking some out. */
module Sequences {
  predicate Distinct(q: seq<nat>) { forall i, j :: 0 <= i < j < |q| ==> q[i] != q[j] }

  /** q without position k. */
  function Cut(q: seq<nat>, k: nat): seq<nat>
    requires k < |q|
  {
    q[..k] + q[k + 1..]
  }

  /** The elements of q that are not in gone, in the order of q. */
  function Without(q: seq<nat>, gone: seq<nat>): seq<nat> {
    if q == [] then []
    else
      var rest, x := Without(q[..|q| - 1], gone), q[|q| - 1];
      if x in gone then rest else rest + [x]
  }

  lemma {:induction false} WithoutMembers(q: seq<nat>, gone: seq<nat>)
    ensures forall x :: x in Without(q, gone) <==> x in q && x !in gone
    ensures Distinct(q) ==> Distinct(Without(q, gone))
  {
    if q != [] {
      WithoutMembers(q[..|q| - 1], gone);
      assert q == q[..|q| - 1] + [q[|q| - 1]];
    }
  }

  lemma {:induction false} WithoutNone(q: seq<nat>, gone: seq<nat>)
    requires forall x :: x in q ==> x !in gone
    ensures Without(q, gone) == q
  {
    if q != [] {
      assert q[|q| - 1] in q;
      WithoutNone(q[..|q| - 1], gone);
    }
  }

  lemma {:induction false} WithoutStranger(q: seq<nat>, gone: seq<nat>, x: nat)
    requires x !in q
    ensures Without(q, gone + [x]) == Without(q, gone)
  {
    if q != [] {
      WithoutStranger(q[..|q| - 1], gone, x);
    }
  }

  /** Taking one more element away cuts out the one position that holds it. */
  lemma {:induction false} WithoutOneMore(q: seq<nat>, gone: seq<nat>, k: nat)
    requires k < |Without(q, gone)| && Distinct(q)
    ensures Without(q, gone + [Without(q, gone)[k]]) == Cut(Without(q, gone), k)
  {
    var all, n := Without(q, gone), |q| - 1;
    var rest, last, x := Without(q[..n], gone), q[n], all[k];
    WithoutMembers(q[..n], gone);
    if k < |rest| {
      assert x in rest && x in q[..n] && x != last;
      WithoutOneMore(q[..n], gone, k);
      assert last !in gone ==> Cut(all, k) == Cut(rest, k) + [last];
    } else {
      assert x == last;
      WithoutStranger(q[..n], gone, last);
      assert Cut(all, k) == rest;
    }
  }

  lemma WithoutOne(q: seq<nat>, k: nat)
    requires Distinct(q) && k < |q|
    ensures Without(q, [q[k]]) == Cut(q, k)
  {
    WithoutNone(q, []);
    WithoutOneMore(q, [], k);
    assert [] + [q[k]] == [q[k]];
  }
}
