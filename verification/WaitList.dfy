/**
 The doubly linked list with a sentinel that holds the waiters of a monitor, and the loops that take waiters off it
 (circular_doubly_linked_list_with_sentinel, notify_relaxed and notify_one_relaxed in src/tbb/concurrent_monitor.h). The
 pointers of all nodes and of the sentinels of all lists are kept in two arrays.
 */
module WaitList {
  import opened Monitor
  import opened Sequences

  /** Position 0 and the position past the end are the sentinel. */
  function NodeAt(h: nat, q: seq<nat>, k: nat): nat
    requires k <= |q| + 1
  {
    if k == 0 || k == |q| + 1 then h else q[k - 1]
  }

  /** Positions k and k + 1 point to each other. */
  predicate Joined(next: seq<nat>, prev: seq<nat>, h: nat, q: seq<nat>, k: nat)
    requires k <= |q|
  {
    var a, b := NodeAt(h, q, k), NodeAt(h, q, k + 1);
    a < |next| && next[a] == b && b < |prev| && prev[b] == a
  }

  /** The pointers from sentinel h spell out q in both directions. */
  ghost predicate Spells(next: seq<nat>, prev: seq<nat>, h: nat, q: seq<nat>) {
    && h < |next| == |prev| && Distinct(q)
    && (forall x :: x in q ==> x < |next| && x != h)
    && (forall k :: 0 <= k <= |q| ==> Joined(next, prev, h, q, k))
  }

  ghost predicate SameOn(a: seq<nat>, b: seq<nat>, h: nat, q: seq<nat>) {
    |a| == |b| && h < |a| && a[h] == b[h] && forall x :: x in q ==> x < |a| && a[x] == b[x]
  }

  /** A list depends only on the pointers of its own nodes. */
  lemma Undisturbed(next: seq<nat>, prev: seq<nat>, next': seq<nat>, prev': seq<nat>, h: nat, q: seq<nat>)
    requires Spells(next, prev, h, q) && SameOn(next, next', h, q) && SameOn(prev, prev', h, q)
    ensures Spells(next', prev', h, q)
  {
    forall k | 0 <= k <= |q|
      ensures Joined(next', prev', h, q, k)
    {
      assert Joined(next, prev, h, q, k);
      assert 0 < k ==> q[k - 1] in q;
      assert k < |q| ==> q[k] in q;
    }
  }

  // ---------------------------------------------------------------- add

  lemma Added(next: seq<nat>, prev: seq<nat>, h: nat, q: seq<nat>, n: nat)
    requires Spells(next, prev, h, q) && n < |next| && n != h && n !in q
    ensures prev[h] < |next| && prev[h] == NodeAt(h, q, |q|)
    ensures Spells(next[n := h][prev[h] := n], prev[n := prev[h]][h := n], h, q + [n])
  {
    var q', last := q + [n], prev[h];
    assert Joined(next, prev, h, q, |q|);
    assert |q| > 0 ==> q[|q| - 1] in q;
    var next', prev' := next[n := h][last := n], prev[n := last][h := n];
    forall k | 0 <= k <= |q'|
      ensures Joined(next', prev', h, q', k)
    {
      if k < |q| {
        assert Joined(next, prev, h, q, k);
        assert q[k] in q && (0 < k ==> q[k - 1] in q);
      }
    }
  }

  method Add(next: array<nat>, prev: array<nat>, h: nat, n: nat, ghost q: seq<nat>)
    requires next != prev && Spells(next[..], prev[..], h, q) && n < next.Length && n != h && n !in q
    modifies next, prev
    ensures Spells(next[..], prev[..], h, q + [n])
    ensures forall x :: 0 <= x < next.Length && x != h && x != n && x !in q ==>
      next[x] == old(next[x]) && prev[x] == old(prev[x])
  {
    Added(next[..], prev[..], h, q, n);
    assert |q| > 0 ==> q[|q| - 1] in q;
    var last := prev[h];
    prev[n] := last;
    next[n] := h;
    next[last] := n;
    prev[h] := n;
    assert next[..] == old(next[..])[n := h][last := n];
    assert prev[..] == old(prev[..])[n := last][h := n];
  }

  // ---------------------------------------------------------------- remove

  lemma Removed(next: seq<nat>, prev: seq<nat>, h: nat, q: seq<nat>, i: nat)
    requires Spells(next, prev, h, q) && i < |q|
    ensures var n := q[i];
      && n < |next| && prev[n] == NodeAt(h, q, i) < |next| && next[n] == NodeAt(h, q, i + 2) < |prev|
      && Spells(next[prev[n] := next[n]], prev[next[n] := prev[n]], h, Cut(q, i))
  {
    var n, q' := q[i], Cut(q, i);
    assert n in q && Joined(next, prev, h, q, i) && Joined(next, prev, h, q, i + 1);
    var next', prev' := next[prev[n] := next[n]], prev[next[n] := prev[n]];
    assert Distinct(q') && forall x :: x in q' ==> x in q;
    forall k | 0 <= k <= |q'|
      ensures Joined(next', prev', h, q', k)
    {
      CutJoined(next, prev, h, q, i, k);
    }
  }

  lemma CutJoined(next: seq<nat>, prev: seq<nat>, h: nat, q: seq<nat>, i: nat, k: nat)
    requires Spells(next, prev, h, q) && i < |q| && k < |q| && q[i] < |next|
    requires prev[q[i]] == NodeAt(h, q, i) < |next| && next[q[i]] == NodeAt(h, q, i + 2) < |prev|
    ensures Joined(next[prev[q[i]] := next[q[i]]], prev[next[q[i]] := prev[q[i]]], h, Cut(q, i), k)
  {
    var j := if k < i then k else k + 1;
    assert Joined(next, prev, h, q, j);
    assert NodeAt(h, Cut(q, i), k) == if k <= i then NodeAt(h, q, k) else NodeAt(h, q, k + 1);
    assert NodeAt(h, Cut(q, i), k + 1) == if k < i then NodeAt(h, q, k + 1) else NodeAt(h, q, k + 2);
    if k != i {
      NodesDiffer(h, q, j, i);
      NodesDiffer(h, q, j + 1, i + 2);
    }
  }

  lemma NodesDiffer(h: nat, q: seq<nat>, i: nat, j: nat)
    requires Distinct(q) && (forall x :: x in q ==> x != h) && i <= |q| + 1
    requires j <= |q| + 1 && i != j && ((i <= |q| && j <= |q|) || (0 < i && 0 < j))
    ensures NodeAt(h, q, i) != NodeAt(h, q, j)
  {
    assert 0 < i <= |q| ==> q[i - 1] in q;
    assert 0 < j <= |q| ==> q[j - 1] in q;
  }

  lemma OnlySentinel(h: nat, q: seq<nat>, k: nat)
    requires (forall x :: x in q ==> x != h) && k <= |q| && NodeAt(h, q, k) == h
    ensures k == 0
  {
    if k > 0 {
      var x := q[k - 1];
      assert x in q;
    }
  }

  method Remove(next: array<nat>, prev: array<nat>, n: nat, ghost h: nat, ghost q: seq<nat>, ghost i: nat)
    requires next != prev && Spells(next[..], prev[..], h, q) && i < |q| && n == q[i] && n < next.Length
    modifies next, prev
    ensures Spells(next[..], prev[..], h, Cut(q, i))
    ensures forall x :: 0 <= x < next.Length && x != h && x !in q ==> next[x] == old(next[x]) && prev[x] == old(prev[x])
    ensures next[n] == old(next[n]) && prev[n] == old(prev[n])
  {
    Removed(next[..], prev[..], h, q, i);
    assert 0 < i ==> q[i - 1] in q;
    assert i + 1 < |q| ==> q[i + 1] in q;
    NodesDiffer(h, q, i, i + 1);
    NodesDiffer(h, q, i + 1, i + 2);
    next[prev[n]] := next[n];
    prev[next[n]] := prev[n];
    assert next[..] == old(next[..])[old(prev[n]) := old(next[n])];
    assert prev[..] == old(prev[..])[old(next[n]) := old(prev[n])];
  }

  // ---------------------------------------------------------------- moving nodes between two lists

  /** Two lists that share no node. */
  ghost predicate Two(next: seq<nat>, prev: seq<nat>, w: nat, q: seq<nat>, t: nat, r: seq<nat>) {
    && Spells(next, prev, w, q) && Spells(next, prev, t, r)
    && w != t && w !in r && t !in q && forall x :: x in q ==> x !in r
  }

  /** Takes the node at position i of the list of w and adds it to the list of t. */
  method Move(next: array<nat>, prev: array<nat>, n: nat, t: nat, ghost w: nat, ghost q: seq<nat>, ghost i: nat,
    ghost r: seq<nat>)
    requires next != prev && Two(next[..], prev[..], w, q, t, r) && i < |q| && n == q[i] && n < next.Length
    modifies next, prev
    ensures Two(next[..], prev[..], w, Cut(q, i), t, r + [n])
  {
    ghost var q' := Cut(q, i);
    assert n in q && n !in q' && forall x :: x in q' ==> x in q;
    Remove(next, prev, n, w, q, i);
    Undisturbed(old(next[..]), old(prev[..]), next[..], prev[..], t, r);
    ghost var a, b := next[..], prev[..];
    Add(next, prev, t, n, r);
    Undisturbed(a, b, next[..], prev[..], w, q');
  }

  // ---------------------------------------------------------------- the loops of the notifications

  /** The waiters that do not match, in order. */
  function Others(q: seq<nat>, nodes: seq<Node>, n: Notifier): seq<nat> {
    if q == [] then []
    else
      var rest, i := Others(q[..|q| - 1], nodes, n), q[|q| - 1];
      if i < |nodes| && Matches(n, nodes[i].context) then rest else rest + [i]
  }

  lemma {:induction false} OthersAreRest(q: seq<nat>, nodes: seq<Node>, n: Notifier, gone: seq<nat>)
    requires forall x :: x in q ==> (x in gone <==> x < |nodes| && Matches(n, nodes[x].context))
    ensures Others(q, nodes, n) == Without(q, gone)
  {
    if q != [] {
      assert q[|q| - 1] in q;
      OthersAreRest(q[..|q| - 1], nodes, n, gone);
    }
  }

  /** One more waiter in front. */
  lemma {:induction false} InFront(x: nat, q: seq<nat>, nodes: seq<Node>, n: Notifier)
    ensures x < |nodes| && Matches(n, nodes[x].context) ==>
      Matching([x] + q, nodes, n) == [x] + Matching(q, nodes, n) && Others([x] + q, nodes, n) == Others(q, nodes, n)
    ensures !(x < |nodes| && Matches(n, nodes[x].context)) ==>
      Matching([x] + q, nodes, n) == Matching(q, nodes, n) && Others([x] + q, nodes, n) == [x] + Others(q, nodes, n)
  {
    var all := [x] + q;
    if q == [] {
      assert all[..|all| - 1] == [];
    } else {
      InFront(x, q[..|q| - 1], nodes, n);
      assert all[..|all| - 1] == [x] + q[..|q| - 1];
    }
  }

  /** The waiters from position j on have been looked at. */
  ghost predicate Walked(next: seq<nat>, prev: seq<nat>, w: nat, t: nat, nodes: seq<Node>, n: Notifier, q: seq<nat>,
    j: nat) {
    j <= |q| && Two(next, prev, w, q[..j] + Others(q[j..], nodes, n), t, Backwards(Matching(q[j..], nodes, n)))
  }

  /** The waiter before position j is to be looked at. */
  lemma Ahead(next: seq<nat>, prev: seq<nat>, w: nat, t: nat, nodes: seq<Node>, n: Notifier, q: seq<nat>, j: nat)
    requires Walked(next, prev, w, t, nodes, n, q, j) && 0 < j
    ensures q[j - 1] < |prev| && prev[q[j - 1]] == NodeAt(w, q, j - 1)
  {
    var rest := q[..j] + Others(q[j..], nodes, n);
    assert Joined(next, prev, w, rest, j - 1);
    assert rest[j - 1] == q[j - 1] && (j > 1 ==> rest[j - 2] == q[j - 2]);
  }

  lemma PassedOver(next: seq<nat>, prev: seq<nat>, w: nat, t: nat, nodes: seq<Node>, n: Notifier, q: seq<nat>, j: nat)
    requires Walked(next, prev, w, t, nodes, n, q, j) && 0 < j
    requires !(q[j - 1] < |nodes| && Matches(n, nodes[q[j - 1]].context))
    ensures Walked(next, prev, w, t, nodes, n, q, j - 1)
  {
    var i := q[j - 1];
    assert q[j - 1..] == [i] + q[j..];
    InFront(i, q[j..], nodes, n);
    assert q[..j] + Others(q[j..], nodes, n) == q[..j - 1] + ([i] + Others(q[j..], nodes, n));
  }

  method TakeOne(next: array<nat>, prev: array<nat>, w: nat, t: nat, nodes: seq<Node>, n: Notifier, i: nat,
    ghost q: seq<nat>, ghost j: nat)
    requires next != prev && Walked(next[..], prev[..], w, t, nodes, n, q, j)
    requires 0 < j && i == q[j - 1] && i < next.Length
    requires i < |nodes| && Matches(n, nodes[i].context)
    modifies next, prev
    ensures Walked(next[..], prev[..], w, t, nodes, n, q, j - 1)
  {
    ghost var others, taken := Others(q[j..], nodes, n), Matching(q[j..], nodes, n);
    assert q[j - 1..] == [i] + q[j..];
    InFront(i, q[j..], nodes, n);
    Move(next, prev, i, t, w, q[..j] + others, j - 1, Backwards(taken));
    assert Cut(q[..j] + others, j - 1) == q[..j - 1] + others;
    assert Backwards([i] + taken) == Backwards(taken) + [i];
  }

  /** The loop of notify_relaxed: from the last waiter to the first, those that match go to the list of t. */
  method TakeMatching(next: array<nat>, prev: array<nat>, w: nat, t: nat, nodes: seq<Node>, n: Notifier,
    ghost q: seq<nat>)
    requires next != prev && Two(next[..], prev[..], w, q, t, [])
    requires |nodes| <= next.Length && forall x :: x in q ==> x < |nodes|
    modifies next, prev
    ensures Two(next[..], prev[..], w, Without(q, Matching(q, nodes, n)), t, Backwards(Matching(q, nodes, n)))
  {
    ghost var j := |q|;
    assert q[..j] + Others(q[j..], nodes, n) == q && Joined(next[..], prev[..], w, q, |q|);
    var i := prev[w];
    while i != w
      invariant 0 <= j <= |q| && i == NodeAt(w, q, j)
      invariant Walked(next[..], prev[..], w, t, nodes, n, q, j)
      decreases j
    {
      assert i == q[j - 1] && i in q;
      Ahead(next[..], prev[..], w, t, nodes, n, q, j);
      var nxt := prev[i];
      if Matches(n, nodes[i].context) {
        TakeOne(next, prev, w, t, nodes, n, i, q, j);
      } else {
        PassedOver(next[..], prev[..], w, t, nodes, n, q, j);
      }
      i := nxt;
      j := j - 1;
    }
    OnlySentinel(w, q, j);
    assert q[..0] + Others(q[0..], nodes, n) == Others(q, nodes, n) && q[0..] == q;
    MatchingMembers(q, nodes, n);
    OthersAreRest(q, nodes, n, Matching(q, nodes, n));
  }

  /** If nobody from position j on matches, the matching waiters are those before. */
  lemma {:induction false} MatchingBefore(q: seq<nat>, nodes: seq<Node>, n: Notifier, j: nat)
    requires j <= |q| && forall k :: j <= k < |q| ==> !(q[k] < |nodes| && Matches(n, nodes[q[k]].context))
    ensures Matching(q, nodes, n) == Matching(q[..j], nodes, n)
    decreases |q|
  {
    if j < |q| {
      MatchingBefore(q[..|q| - 1], nodes, n, j);
      assert q[..|q| - 1][..j] == q[..j];
    } else {
      assert q[..j] == q;
    }
  }

  /** The loop of notify_one_relaxed with a predicate: takes the last waiter that matches off the list. */
  method TakeLast(next: array<nat>, prev: array<nat>, w: nat, nodes: seq<Node>, n: Notifier,
    ghost q: seq<nat>) returns (i: nat)
    requires next != prev && Spells(next[..], prev[..], w, q) && |nodes| <= next.Length
    requires n.kind == Last && forall x :: x in q ==> x < |nodes|
    modifies next, prev
    ensures Spells(next[..], prev[..], w, Without(q, Taken(q, nodes, n)))
    ensures Taken(q, nodes, n) == if i == w then [] else [i]
  {
    ghost var j := |q|;
    assert Joined(next[..], prev[..], w, q, |q|);
    i := prev[w];
    while i != w
      invariant 0 <= j <= |q| && i == NodeAt(w, q, j)
      invariant next[..] == old(next[..]) && prev[..] == old(prev[..])
      invariant forall k :: j <= k < |q| ==> !(q[k] < |nodes| && Matches(n, nodes[q[k]].context))
      decreases j
    {
      assert i == q[j - 1] && i in q;
      assert Joined(next[..], prev[..], w, q, j - 1);
      if Matches(n, nodes[i].context) {
        MatchingBefore(q, nodes, n, j);
        assert q[..j][..j - 1] == q[..j - 1];
        WithoutOne(q, j - 1);
        Remove(next, prev, i, w, q, j - 1);
        return;
      }
      i := prev[i];
      j := j - 1;
    }
    OnlySentinel(w, q, j);
    MatchingBefore(q, nodes, n, 0);
    WithoutNone(q, []);
  }

  // ---------------------------------------------------------------- flush

  lemma Flushed(next: seq<nat>, prev: seq<nat>, w: nat, q: seq<nat>, t: nat)
    requires Two(next, prev, w, q, t, []) && q != []
    ensures next[w] == q[0] < |prev| && prev[w] == q[|q| - 1] < |next|
    ensures Two(next[t := q[0]][q[|q| - 1] := t][w := w], prev[t := q[|q| - 1]][q[0] := t][w := w], w, [], t, q)
  {
    var first, last := q[0], q[|q| - 1];
    assert first in q && last in q && Joined(next, prev, w, q, 0) && Joined(next, prev, w, q, |q|);
    var next', prev' := next[t := first][last := t][w := w], prev[t := last][first := t][w := w];
    forall k | 0 <= k <= |q|
      ensures Joined(next', prev', t, q, k)
    {
      assert Joined(next, prev, w, q, k);
      assert 0 < k ==> q[k - 1] in q;
      assert k < |q| ==> q[k] in q;
    }
    assert Joined(next', prev', w, [], 0);
  }

  /** flush_to: moves the whole list of w to the empty list of t. */
  method FlushTo(next: array<nat>, prev: array<nat>, w: nat, t: nat, ghost q: seq<nat>)
    requires next != prev && Two(next[..], prev[..], w, q, t, [])
    modifies next, prev
    ensures Two(next[..], prev[..], w, [], t, q)
  {
    assert Joined(next[..], prev[..], w, q, 0);
    if q != [] { assert q[0] in q; }
    if next[w] != w {
      Flushed(next[..], prev[..], w, q, t);
      assert q[0] in q && q[|q| - 1] in q;
      var first, last := next[w], prev[w];
      next[t], prev[t] := first, last;
      prev[first] := t;
      next[last] := t;
      next[w], prev[w] := w, w;
      assert next[..] == old(next[..])[t := first][last := t][w := w];
      assert prev[..] == old(prev[..])[t := last][first := t][w := w];
    }
  }
}
