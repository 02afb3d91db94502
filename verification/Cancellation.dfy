/**
 Cancellation of task group contexts: the tree of contexts (task_group_context_impl in src/tbb/task_group_context.cpp),
 and the propagation of a cancellation to all descendants (src/tbb/cancellation_disseminator.h and
 src/tbb/thread_data.h). Binding and cancelling are taken one at a time.
 */
module Cancellation {
  import opened Wrappers

  /** The contexts by number. A context gets its parent once, when it is bound; until then it is created only. */
  datatype Forest = Forest(
    parent: seq<Option<nat>>,      // my_parent
    settled: seq<bool>,            // my_state is bound or isolated
    cancelled: seq<bool>,          // my_cancellation_requested
    mayHaveChildren: seq<bool>,    // my_may_have_children
    depth: seq<nat>)               // history: the number of ancestors

  ghost predicate WellFormed(f: Forest) {
    && |f.parent| == |f.settled| == |f.cancelled| == |f.mayHaveChildren| == |f.depth|
    && forall c :: 0 <= c < |f.parent| && f.parent[c].Some? ==> ParentOk(f, c, f.parent[c].value)
  }

  predicate ParentOk(f: Forest, c: nat, p: nat)
    requires |f.parent| == |f.settled| == |f.cancelled| == |f.mayHaveChildren| == |f.depth| && c < |f.parent|
  {
    p < |f.parent| && f.settled[p] && f.settled[c] && f.mayHaveChildren[p] && f.depth[p] < f.depth[c]
  }

  /** src is a strict ancestor of c. */
  ghost predicate Descends(f: Forest, c: nat, src: nat)
    requires WellFormed(f) && c < |f.parent|
    decreases f.depth[c]
  {
    f.parent[c].Some? && (f.parent[c].value == src || Descends(f, f.parent[c].value, src))
  }

  /** A cancelled context has no child that is not cancelled. */
  ghost predicate Consistent(f: Forest)
    requires WellFormed(f)
  {
    forall c :: 0 <= c < |f.parent| && f.parent[c].Some? && f.cancelled[f.parent[c].value] ==> f.cancelled[c]
  }

  /** The flags after a cancellation has reached all strict descendants of src. */
  ghost function Spread(f: Forest, src: nat): seq<bool>
    requires WellFormed(f)
  {
    seq(|f.parent|, c requires 0 <= c < |f.parent| => f.cancelled[c] || Descends(f, c, src))
  }

  // ---------------------------------------------------------------- the order of ancestors

  lemma {:induction false} DescendsIsDeeper(f: Forest, c: nat, src: nat)
    requires WellFormed(f) && c < |f.parent| && Descends(f, c, src)
    ensures src < |f.parent| && f.depth[src] < f.depth[c] && f.mayHaveChildren[src]
    decreases f.depth[c]
  {
    var p := f.parent[c].value;
    assert ParentOk(f, c, p);
    if p != src {
      DescendsIsDeeper(f, p, src);
    }
  }

  lemma {:induction false} DescendsTransitive(f: Forest, c: nat, b: nat, a: nat)
    requires WellFormed(f) && c < |f.parent| && b < |f.parent| && Descends(f, c, b) && Descends(f, b, a)
    ensures Descends(f, c, a)
    decreases f.depth[c]
  {
    var p := f.parent[c].value;
    assert ParentOk(f, c, p);
    if p != b {
      DescendsTransitive(f, p, b, a);
    }
  }

  /** x is c or a strict ancestor of c. */
  ghost predicate AtOrAbove(f: Forest, x: nat, c: nat)
    requires WellFormed(f) && c < |f.parent|
  {
    x == c || Descends(f, c, x)
  }

  /** The contexts from c up to below the parent of x are those below x, and x. */
  lemma {:induction false} OneFurther(f: Forest, c: nat, x: nat, y: nat)
    requires WellFormed(f) && c < |f.parent| && x < |f.parent| && y < |f.parent| && f.parent[x].Some?
    requires AtOrAbove(f, x, c) && AtOrAbove(f, y, c)
    ensures Descends(f, y, f.parent[x].value) <==> Descends(f, y, x) || y == x
    decreases f.depth[c]
  {
    var p := f.parent[x].value;
    assert ParentOk(f, x, p);
    if y == c {
      ClimbFurther(f, c, x);
    } else if x == c {
      // y is above x, so it is not below the parent of x
      var q := f.parent[c].value;
      assert AtOrAbove(f, y, q);
      if Descends(f, y, p) {
        DescendsIsDeeper(f, y, p);
        AboveIsNotDeeper(f, y, p);
      } else if Descends(f, y, x) {
        DescendsTransitive(f, y, x, p);
      }
    } else {
      assert ParentOk(f, c, f.parent[c].value);
      OneFurther(f, f.parent[c].value, x, y);
    }
  }

  lemma AboveIsNotDeeper(f: Forest, y: nat, c: nat)
    requires WellFormed(f) && c < |f.parent| && y < |f.parent| && AtOrAbove(f, y, c)
    ensures f.depth[y] <= f.depth[c]
  {
    if y != c {
      DescendsIsDeeper(f, c, y);
    }
  }

  lemma NotBelow(f: Forest, y: nat, c: nat)
    requires WellFormed(f) && c < |f.parent| && y < |f.parent| && AtOrAbove(f, y, c)
    ensures !Descends(f, y, c)
  {
    AboveIsNotDeeper(f, y, c);
    if Descends(f, y, c) {
      DescendsIsDeeper(f, y, c);
    }
  }

  lemma {:induction false} ClimbFurther(f: Forest, c: nat, x: nat)
    requires WellFormed(f) && c < |f.parent| && x < |f.parent| && f.parent[x].Some? && AtOrAbove(f, x, c)
    ensures Descends(f, c, f.parent[x].value)
    decreases f.depth[c]
  {
    if x != c {
      assert ParentOk(f, c, f.parent[c].value);
      ClimbFurther(f, f.parent[c].value, x);
    }
  }

  // ---------------------------------------------------------------- operations

  datatype Step = Create | Isolate(c: nat) | Bind(c: nat, p: nat) | Cancel(c: nat) | Reset(c: nat)

  predicate Enabled(f: Forest, a: Step) {
    && |f.parent| == |f.settled| == |f.cancelled| == |f.mayHaveChildren| == |f.depth|
    && match a
       case Create => true
       case Isolate(c) => c < |f.parent| && !f.settled[c]
       case Bind(c, p) => c < |f.parent| && p < |f.parent| && !f.settled[c] && f.settled[p]
       case Cancel(c) => c < |f.parent|
       case Reset(c) => c < |f.parent|
  }

  ghost function Apply(f: Forest, a: Step): Forest
    requires WellFormed(f) && Enabled(f, a)
  {
    match a
    case Create =>
      Forest(f.parent + [None], f.settled + [false], f.cancelled + [false], f.mayHaveChildren + [false], f.depth + [0])
    case Isolate(c) => f.(settled := f.settled[c := true])
    case Bind(c, p) =>
      Forest(f.parent[c := Some(p)], f.settled[c := true], f.cancelled[c := f.cancelled[p]],
        f.mayHaveChildren[p := true],
             f.depth[c := f.depth[p] + 1])
    case Cancel(c) =>
      if f.cancelled[c] then f
      else var f1 := f.(cancelled := f.cancelled[c := true]); f1.(cancelled := Spread(f1, c))
    case Reset(c) => f.(cancelled := f.cancelled[c := false])
  }

  /** A cancellation reaches the context and its descendants and nobody else; a repeated one changes nothing. */
  lemma CancelReaches(f: Forest, c: nat)
    requires WellFormed(f) && Enabled(f, Cancel(c))
    ensures var f' := Apply(f, Cancel(c));
      && |f'.cancelled| == |f.cancelled| && f'.parent == f.parent && (f.cancelled[c] ==> f' == f)
      && (!f.cancelled[c] ==> forall x :: 0 <= x < |f.parent| ==>
           (f'.cancelled[x] <==> f.cancelled[x] || x == c || Descends(f, x, c)))
  {
    var f1 := f.(cancelled := f.cancelled[c := true]);
    forall x | 0 <= x < |f.parent|
      ensures Descends(f1, x, c) == Descends(f, x, c)
    {
      SameTree(f, f1, x, c);
    }
  }

  /** A context that is not settled yet is nobody's parent. */
  lemma NoChildYet(f: Forest, c: nat, x: nat)
    requires WellFormed(f) && c < |f.parent| && !f.settled[c] && x < |f.parent|
    ensures f.parent[c] == None && f.parent[x] != Some(c)
  {
    assert f.parent[c].Some? ==> ParentOk(f, c, f.parent[c].value);
    assert f.parent[x].Some? ==> ParentOk(f, x, f.parent[x].value);
  }

  lemma WellFormedKept(f: Forest, a: Step)
    requires WellFormed(f) && Enabled(f, a)
    ensures WellFormed(Apply(f, a))
  {
    var f' := Apply(f, a);
    forall x | 0 <= x < |f'.parent| && f'.parent[x].Some?
      ensures ParentOk(f', x, f'.parent[x].value)
    {
      if a.Bind? {
        NoChildYet(f, a.c, x);
      }
      assert x < |f.parent| && f.parent[x].Some? ==> ParentOk(f, x, f.parent[x].value);
    }
  }

  /** The parent of c is cancelled. */
  predicate UnderCancelled(f: Forest, c: nat) {
    c < |f.parent| && f.parent[c].Some? && f.parent[c].value < |f.cancelled| && f.cancelled[f.parent[c].value]
  }

  /** The step resets a context below a cancelled one. */
  predicate Exposes(f: Forest, a: Step) { a.Reset? && UnderCancelled(f, a.c) }

  /** A context whose parent is cancelled and which is not. */
  predicate Exposed(f: Forest, c: nat) { UnderCancelled(f, c) && c < |f.cancelled| && !f.cancelled[c] }

  /** Only a reset below a cancelled parent exposes a context, and it always does. */
  lemma ExposedOnlyByReset(f: Forest, a: Step, c: nat)
    requires WellFormed(f) && Enabled(f, a) && WellFormed(Apply(f, a)) && c < |Apply(f, a).parent| && !Exposed(f, c)
    ensures Exposed(Apply(f, a), c) <==> a == Reset(c) && UnderCancelled(f, c)
  {
    var f' := Apply(f, a);
    if f'.parent[c].Some? {
      assert ParentOk(f', c, f'.parent[c].value);
      if a.Bind? {
        NoChildYet(f, a.c, c);
      }
      if a.Cancel? {
        SameTree(f, f.(cancelled := f.cancelled[a.c := true]), c, a.c);
      }
    }
  }

  /** Flags are consistent after a step exactly if the step was not a reset below a cancelled parent. */
  lemma ConsistentKept(f: Forest, a: Step)
    requires WellFormed(f) && Enabled(f, a) && Consistent(f) && WellFormed(Apply(f, a))
    ensures Consistent(Apply(f, a)) <==> !Exposes(f, a)
  {
    var f' := Apply(f, a);
    forall x | 0 <= x < |f'.parent|
      ensures Exposed(f', x) <==> a == Reset(x) && UnderCancelled(f, x)
    {
      assert !Exposed(f, x);
      ExposedOnlyByReset(f, a, x);
    }
    assert Exposes(f, a) ==> Exposed(f', a.c);
    if !Exposes(f, a) {
      forall x | 0 <= x < |f'.parent| && f'.parent[x].Some? && f'.cancelled[f'.parent[x].value]
        ensures f'.cancelled[x]
      {
        assert !Exposed(f', x);
      }
    }
  }

  /** Descent does not depend on the flags. */
  lemma {:induction false} SameTree(f: Forest, f': Forest, c: nat, src: nat)
    requires WellFormed(f) && WellFormed(f') && f'.parent == f.parent && f'.depth == f.depth && c < |f.parent|
    ensures Descends(f, c, src) <==> Descends(f', c, src)
    decreases f.depth[c]
  {
    if f.parent[c].Some? {
      assert ParentOk(f, c, f.parent[c].value);
      SameTree(f, f', f.parent[c].value, src);
    }
  }

  lemma {:induction false} ConsistentDescends(f: Forest, c: nat, src: nat)
    requires WellFormed(f) && Consistent(f) && c < |f.parent|
    requires src < |f.parent| && f.cancelled[src] && Descends(f, c, src)
    ensures f.cancelled[c]
    decreases f.depth[c]
  {
    var p := f.parent[c].value;
    assert ParentOk(f, c, p);
    if p != src {
      ConsistentDescends(f, p, src);
    }
  }

  /** Every descendant of a cancelled context is cancelled. */
  ghost predicate AllBelowCancelled(f: Forest) {
    && WellFormed(f)
    && forall c, src :: 0 <= c < |f.parent| && 0 <= src < |f.parent| && f.cancelled[src] && Descends(f, c, src) ==>
      f.cancelled[c]
  }

  lemma ConsistentIsAllBelow(f: Forest)
    requires WellFormed(f)
    ensures Consistent(f) <==> AllBelowCancelled(f)
  {
    if Consistent(f) {
      forall c, src | 0 <= c < |f.parent| && 0 <= src < |f.parent| && f.cancelled[src] && Descends(f, c, src)
        ensures f.cancelled[c]
      {
        ConsistentDescends(f, c, src);
      }
    }
    if AllBelowCancelled(f) {
      forall c | 0 <= c < |f.parent| && f.parent[c].Some? && f.cancelled[f.parent[c].value]
        ensures f.cancelled[c]
      {
        assert Descends(f, c, f.parent[c].value);
      }
    }
  }

  // ---------------------------------------------------------------- runs

  ghost predicate Follows(f: Forest, a: Step, f': Forest) {
    WellFormed(f) && Enabled(f, a) && Apply(f, a) == f'
  }

  /** A run with the steps it takes. */
  ghost predicate IsRun(run: seq<Forest>, steps: seq<Step>) {
    && |run| == |steps| + 1
    && run[0] == Forest([], [], [], [], [])
    && forall i :: 0 <= i < |steps| ==> Follows(run[i], steps[i], run[i + 1])
  }

  lemma {:induction false} RunWellFormed(run: seq<Forest>, steps: seq<Step>, n: nat)
    requires IsRun(run, steps) && n < |run|
    ensures WellFormed(run[n])
    decreases n
  {
    if n > 0 {
      RunWellFormed(run, steps, n - 1);
      assert Follows(run[n - 1], steps[n - 1], run[n - 1 + 1]);
      WellFormedKept(run[n - 1], steps[n - 1]);
    }
  }

  /** No step before the n-th resets a context below a cancelled one. */
  ghost predicate Orderly(run: seq<Forest>, steps: seq<Step>, n: nat)
    requires IsRun(run, steps) && n < |run|
  {
    forall k :: 0 <= k < n ==> !Exposes(run[k], steps[k])
  }

  /**
   Throughout a run every descendant of a cancelled context is cancelled, exactly if no context is reset below a
   cancelled one.
   */
  lemma {:induction false} DescendantsCancelled(run: seq<Forest>, steps: seq<Step>, n: nat)
    requires IsRun(run, steps) && n < |run|
    ensures (forall k :: 0 <= k <= n ==> AllBelowCancelled(run[k])) <==> Orderly(run, steps, n)
    decreases n
  {
    if n == 0 {
      assert AllBelowCancelled(run[0]);
    } else {
      DescendantsCancelled(run, steps, n - 1);
      RunWellFormed(run, steps, n - 1);
      RunWellFormed(run, steps, n);
      assert Follows(run[n - 1], steps[n - 1], run[n - 1 + 1]);
      ConsistentIsAllBelow(run[n - 1]);
      ConsistentIsAllBelow(run[n]);
      if Consistent(run[n - 1]) {
        ConsistentKept(run[n - 1], steps[n - 1]);
      }
      assert Orderly(run, steps, n) <==> Orderly(run, steps, n - 1) && !Exposes(run[n - 1], steps[n - 1]);
    }
  }

  /** A context that is not marked as a possible parent has no descendants, so stopping early skips nobody. */
  lemma EarlyExitSound(run: seq<Forest>, steps: seq<Step>, n: nat, src: nat)
    requires IsRun(run, steps) && n < |run| && src < |run[n].parent|
    requires WellFormed(run[n]) && !run[n].mayHaveChildren[src]
    ensures Spread(run[n], src) == run[n].cancelled
  {
    NobodyBelow(run[n], src);
  }

  lemma NobodyBelow(f: Forest, src: nat)
    requires WellFormed(f) && src < |f.parent| && !f.mayHaveChildren[src]
    ensures Spread(f, src) == f.cancelled
  {
    forall c | 0 <= c < |f.parent|
      ensures !Descends(f, c, src)
    {
      if Descends(f, c, src) {
        DescendsIsDeeper(f, c, src);
      }
    }
  }

  predicate Requested(f: Forest, c: nat) { c < |f.cancelled| && f.cancelled[c] }

  /** The step binds c under a parent that is not cancelled, or resets it. */
  predicate Withdraws(f: Forest, a: Step, c: nat) {
    (a.Bind? && a.c == c && !Requested(f, a.p)) || a == Reset(c)
  }

  lemma WithdrawnStep(f: Forest, a: Step, c: nat)
    requires WellFormed(f) && Enabled(f, a) && Requested(f, c)
    ensures Requested(Apply(f, a), c) <==> !Withdraws(f, a, c)
  {
  }

  /**
   A request stands throughout a stretch of a run exactly if no step of the stretch binds the context under a parent
   that is not cancelled, or resets it.
   */
  lemma {:induction false} RequestStands(run: seq<Forest>, steps: seq<Step>, m: nat, n: nat, c: nat)
    requires IsRun(run, steps) && m <= n < |run| && Requested(run[m], c)
    ensures (forall k :: m <= k <= n ==> Requested(run[k], c)) <==>
      (forall k :: m <= k < n ==> !Withdraws(run[k], steps[k], c))
    decreases n
  {
    if m < n {
      RequestStands(run, steps, m, n - 1, c);
      assert Follows(run[n - 1], steps[n - 1], run[n - 1 + 1]);
      if Requested(run[n - 1], c) {
        WithdrawnStep(run[n - 1], steps[n - 1], c);
      }
    }
  }

  /** A request made before the context is bound can be lost. */
  lemma LostRequest() returns (run: seq<Forest>, steps: seq<Step>)
    ensures IsRun(run, steps) && |run| == 6 && Requested(run[4], 1) && steps[4] == Bind(1, 0) && !Requested(run[5], 1)
  {
    var f0 := Forest([], [], [], [], []);
    var f3 := Forest([None, None], [true, false], [false, false], [false, false], [0, 0]);
    var f4 := f3.(cancelled := [false, true]);
    steps := [Create, Isolate(0), Create, Cancel(1), Bind(1, 0)];
    assert f4 == Apply(f3, Cancel(1)) by {
      var g := f3.(cancelled := f3.cancelled[1 := true]);
      assert !Descends(g, 0, 1) && !Descends(g, 1, 1);
      assert Spread(g, 1) == [false, true];
    }
    run := [f0, Apply(f0, Create), Apply(Apply(f0, Create), Isolate(0)), f3, f4, Apply(f4, Bind(1, 0))];
    assert Follows(run[0], Create, run[1]) && Follows(run[1], Isolate(0), run[2]) && Follows(run[2], Create, run[3]);
    assert Follows(f3, Cancel(1), f4) && Follows(f4, Bind(1, 0), run[5]);
  }

  /** A child bound under its parent, and both of them cancelled. */
  lemma CancelledPair(f4: Forest, f5: Forest)
    requires f4 == Forest([None, Some(0)], [true, true], [false, false], [true, false], [0, 1])
    requires f5 == f4.(cancelled := [true, true])
    ensures Follows(f4, Cancel(0), f5) && WellFormed(f5) && Consistent(f5)
  {
    var g := f4.(cancelled := f4.cancelled[0 := true]);
    assert ParentOk(f4, 1, 0) && ParentOk(f5, 1, 0) && ParentOk(g, 1, 0);
    assert Descends(g, 1, 0) && !Descends(g, 0, 0);
    assert Spread(g, 0) == [true, true];
  }

  /** A context reset below its cancelled parent goes on while the parent stays cancelled. */
  lemma ExposedByReset() returns (run: seq<Forest>, steps: seq<Step>)
    ensures IsRun(run, steps) && |run| == 7 && steps[5] == Reset(1) && AllBelowCancelled(run[5]) && Exposed(run[6], 1)
  {
    var f0 := Forest([], [], [], [], []);
    var f3 := Forest([None, None], [true, false], [false, false], [false, false], [0, 0]);
    var f4 := Forest([None, Some(0)], [true, true], [false, false], [true, false], [0, 1]);
    var f5 := f4.(cancelled := [true, true]);
    steps := [Create, Isolate(0), Create, Bind(1, 0), Cancel(0), Reset(1)];
    CancelledPair(f4, f5);
    ConsistentIsAllBelow(f5);
    run := [f0, Apply(f0, Create), Apply(Apply(f0, Create), Isolate(0)), f3, f4, f5, Apply(f5, Reset(1))];
    assert Follows(run[0], Create, run[1]) && Follows(run[1], Isolate(0), run[2]) && Follows(run[2], Create, run[3]);
    assert Follows(f3, Bind(1, 0), f4) && Follows(f5, Reset(1), run[6]);
  }

  // ---------------------------------------------------------------- propagation in place

  /** The contexts that one call for ctx paints: those from ctx up to below src. */
  ghost function Painted(f: Forest, ctx: nat, src: nat): seq<bool>
    requires WellFormed(f) && ctx < |f.parent|
  {
    seq(|f.parent|, y requires 0 <= y < |f.parent| =>
      f.cancelled[y]
        || (!f.cancelled[ctx] && ctx != src && Descends(f, ctx, src) && AtOrAbove(f, y, ctx) && Descends(f, y, src)))
  }

  class ContextTree {
    var parent: seq<Option<nat>>
    var settled: seq<bool>
    var cancelled: seq<bool>
    var mayHaveChildren: seq<bool>
    var lists: seq<seq<nat>>       // my_context_list of each registered thread
    ghost var depth: seq<nat>

    ghost function View(): Forest
      reads this
    {
      Forest(parent, settled, cancelled, mayHaveChildren, depth)
    }

    /** The lists hold every bound context. */
    ghost predicate Valid()
      reads this
    {
      && WellFormed(View())
      && (forall t, k :: 0 <= t < |lists| && 0 <= k < |lists[t]| ==> lists[t][k] < |parent|)
      && (forall c :: 0 <= c < |parent| && parent[c].Some? ==> Listed(lists, c))
    }

    constructor ()
      ensures Valid() && View() == Forest([], [], [], [], []) && lists == []
    {
      parent, settled, cancelled, mayHaveChildren, depth, lists := [], [], [], [], [], [];
    }

    method RegisterThread()
      requires Valid()
      modifies this`lists
      ensures Valid() && lists == [[]] + old(lists)
    {
      lists := [[]] + lists;
      forall c | 0 <= c < |parent| && parent[c].Some?
        ensures Listed(lists, c)
      {
        var t :| 0 <= t < |old(lists)| && c in old(lists)[t];
        assert lists[t + 1] == old(lists)[t];
      }
    }

    method NewContext() returns (c: nat)
      requires Valid()
      modifies this
      ensures Valid() && View() == Apply(old(View()), Create) && c == old(|parent|) && lists == old(lists)
    {
      c := |parent|;
      WellFormedKept(View(), Create);
      parent, settled, cancelled, mayHaveChildren, depth :=
        parent + [None], settled + [false], cancelled + [false], mayHaveChildren + [false], depth + [0];
    }

    /** bind_to for a context without a parent. */
    method IsolateContext(c: nat)
      requires Valid() && c < |parent| && !settled[c]
      modifies this`settled
      ensures Valid() && View() == Apply(old(View()), Isolate(c))
    {
      WellFormedKept(View(), Isolate(c));
      settled := settled[c := true];
    }

    /** bind_to by thread td while it executes a task of context p. */
    method BindContext(c: nat, p: nat, td: nat)
      requires Valid() && c < |parent| && p < |parent| && !settled[c] && settled[p] && td < |lists|
      modifies this
      ensures Valid() && View() == Apply(old(View()), Bind(c, p)) && lists == old(lists)[td := [c] + old(lists)[td]]
      ensures parent == old(parent)[c := Some(p)] && settled[c] && mayHaveChildren[p]
      ensures cancelled[c] == old(cancelled)[p]
    {
      WellFormedKept(View(), Bind(c, p));
      parent := parent[c := Some(p)];
      if !mayHaveChildren[p] {
        mayHaveChildren := mayHaveChildren[p := true];
      }
      lists := lists[td := [c] + lists[td]];
      cancelled := cancelled[c := cancelled[p]];
      settled := settled[c := true];
      depth := depth[c := depth[p] + 1];
      assert View() == Apply(old(View()), Bind(c, p));
      forall x | 0 <= x < |parent| && parent[x].Some?
        ensures Listed(lists, x)
      {
        if x == c {
          assert c in lists[td];
        } else {
          var t :| 0 <= t < |old(lists)| && x in old(lists)[t];
          assert x in lists[t];
        }
      }
    }

    /** cancel_group_execution. */
    method CancelContext(c: nat) returns (ok: bool)
      requires Valid() && c < |parent|
      modifies this`cancelled
      ensures Valid() && View() == Apply(old(View()), Cancel(c)) && ok == !old(cancelled[c])
      ensures cancelled[c] && (!ok ==> cancelled == old(cancelled))
      ensures ok ==> forall x :: 0 <= x < |parent| ==>
        (cancelled[x] <==> old(cancelled[x]) || x == c || old(Descends(View(), x, c)))
    {
      CancelReaches(View(), c);
      if cancelled[c] {
        return false;
      }
      cancelled := cancelled[c := true];
      if mayHaveChildren[c] {
        Propagate(c);
      } else {
        NobodyBelow(View(), c);
      }
      return true;
    }

    /** reset: takes the request back, whatever the parent says. */
    method ResetContext(c: nat)
      requires Valid() && c < |parent|
      modifies this`cancelled
      ensures Valid() && View() == Apply(old(View()), Reset(c))
      ensures Exposed(View(), c) <==> old(UnderCancelled(View(), c))
    {
      WellFormedKept(View(), Reset(c));
      assert parent[c].Some? ==> ParentOk(View(), c, parent[c].value);
      cancelled := cancelled[c := false];
    }

    /** What one context of the pass does: nothing, or paint the chain up to below src. */
    method PropagateTo(ctx: nat, src: nat)
      requires WellFormed(View()) && ctx < |parent| && src < |parent|
      modifies this`cancelled
      ensures View() == old(View()).(cancelled := Painted(old(View()), ctx, src))
    {
      ghost var f := View();
      if !cancelled[ctx] && ctx != src {
        var ancestor: Option<nat> := parent[ctx];
        while ancestor.Some?
          invariant View() == f
          invariant ancestor.Some? ==> ancestor.value < |parent|
          invariant Descends(f, ctx, src) <==> ancestor.Some? && AtOrAbove(f, src, ancestor.value)
          decreases if ancestor.Some? then depth[ancestor.value] + 1 else 0
        {
          if ancestor.value == src {
            PaintUpTo(ctx, src);
            return;
          }
          ancestor := parent[ancestor.value];
        }
      }
      assert cancelled == Painted(f, ctx, src);
    }

    method PaintUpTo(ctx: nat, src: nat)
      requires WellFormed(View()) && ctx < |parent| && src < |parent|
      requires Descends(View(), ctx, src) && !cancelled[ctx] && ctx != src
      modifies this`cancelled
      ensures View() == old(View()).(cancelled := Painted(old(View()), ctx, src))
    {
      ghost var f := View();
      var c: nat := ctx;
      forall y | 0 <= y < |parent| && AtOrAbove(f, y, ctx)
        ensures !Descends(f, y, ctx)
      {
        NotBelow(f, y, ctx);
      }
      while c != src
        invariant |parent| == |cancelled| == |depth| && View() == f.(cancelled := cancelled)
        invariant c < |parent|
        invariant c == src || Descends(f, c, src)
        invariant AtOrAbove(f, c, ctx)
        invariant forall y :: 0 <= y < |parent| ==>
          cancelled[y] == (f.cancelled[y] || (AtOrAbove(f, y, ctx) && Descends(f, y, c)))
        decreases depth[c]
      {
        var up := parent[c].value;
        forall y | 0 <= y < |parent| && AtOrAbove(f, y, ctx)
          ensures Descends(f, y, up) <==> Descends(f, y, c) || y == c
        {
          OneFurther(f, ctx, c, y);
        }
        ClimbFurther(f, ctx, c);
        cancelled := cancelled[c := true];
        c := up;
      }
      assert cancelled == Painted(f, ctx, src);
    }

    /** One pass over the contexts of all threads. */
    method Propagate(src: nat)
      requires Valid() && src < |parent|
      modifies this`cancelled
      ensures Valid() && View() == old(View()).(cancelled := Spread(old(View()), src))
    {
      ghost var f := View();
      var t := 0;
      while t < |lists|
        invariant 0 <= t <= |lists|
        invariant Partly(f, View(), src)
        invariant forall u :: 0 <= u < t ==> forall c :: c in lists[u] ==> Reached(f, View(), c, src)
      {
        PropagateList(lists[t], src, f);
        t := t + 1;
      }
      Complete(f, View(), lists, src);
    }

    /** The part of the pass for one thread. */
    method PropagateList(list: seq<nat>, src: nat, ghost f: Forest)
      requires WellFormed(f) && src < |parent| && Partly(f, View(), src)
      requires forall k :: 0 <= k < |list| ==> list[k] < |parent|
      modifies this`cancelled
      ensures Partly(f, View(), src)
      ensures forall c :: c in list ==> Reached(f, View(), c, src)
      ensures forall c :: Reached(f, old(View()), c, src) ==> Reached(f, View(), c, src)
    {
      var k := 0;
      while k < |list|
        invariant 0 <= k <= |list|
        invariant Partly(f, View(), src)
        invariant forall j :: 0 <= j < k ==> Reached(f, View(), list[j], src)
        invariant forall c :: Reached(f, old(View()), c, src) ==> Reached(f, View(), c, src)
      {
        ghost var g := View();
        if !cancelled[list[k]] {
          PropagateTo(list[k], src);
          PaintedPartly(f, g, list[k], src);
        }
        k := k + 1;
      }
    }
  }

  ghost predicate Listed(lists: seq<seq<nat>>, c: nat) {
    exists t :: 0 <= t < |lists| && c in lists[t]
  }

  /** g differs from f only in flags of descendants of src that are set. */
  ghost predicate Partly(f: Forest, g: Forest, src: nat)
    requires WellFormed(f)
  {
    && g == f.(cancelled := g.cancelled) && |g.cancelled| == |f.cancelled|
    && forall c :: 0 <= c < |f.parent| ==>
      (f.cancelled[c] ==> g.cancelled[c]) && (g.cancelled[c] ==> f.cancelled[c] || Descends(f, c, src))
  }

  /** Context c is cancelled in g if it descends from src. */
  ghost predicate Reached(f: Forest, g: Forest, c: nat, src: nat)
    requires WellFormed(f)
  {
    c < |f.parent| && |g.cancelled| == |f.cancelled| && (Descends(f, c, src) ==> g.cancelled[c])
  }

  lemma PaintedPartly(f: Forest, g: Forest, ctx: nat, src: nat)
    requires WellFormed(f) && Partly(f, g, src) && ctx < |f.parent| && src < |f.parent| && !g.cancelled[ctx]
    ensures WellFormed(g)
    ensures var g' := g.(cancelled := Painted(g, ctx, src));
      && Partly(f, g', src) && Reached(f, g', ctx, src)
      && forall c :: Reached(f, g, c, src) ==> Reached(f, g', c, src)
  {
    forall c | 0 <= c < |f.parent|
      ensures Descends(f, c, src) <==> Descends(g, c, src)
    {
      SameTree(f, g, c, src);
    }
    NotBelow(f, src, src);
  }

  /** When every bound context has been reached the pass is complete. */
  lemma Complete(f: Forest, g: Forest, lists: seq<seq<nat>>, src: nat)
    requires WellFormed(f) && Partly(f, g, src)
    requires forall c :: 0 <= c < |f.parent| && f.parent[c].Some? ==> Listed(lists, c)
    requires forall u :: 0 <= u < |lists| ==> forall c :: c in lists[u] ==> Reached(f, g, c, src)
    ensures g == f.(cancelled := Spread(f, src))
  {
    forall c | 0 <= c < |f.parent|
      ensures g.cancelled[c] == Spread(f, src)[c]
    {
      if f.parent[c].Some? {
        assert Listed(lists, c);
        var t :| 0 <= t < |lists| && c in lists[t];
        assert Reached(f, g, c, src);
      }
    }
  }
}
