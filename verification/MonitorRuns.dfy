/** What holds in every run of the concurrent monitor. */
module MonitorRuns {
  import opened Wrappers
  import opened Sequences
  import opened Monitor

  ghost predicate Next(s: State, s': State) {
    exists a: Step :: Enabled(s, a) && Apply(s, a) == s'
  }

  /** A run interleaves any number of waiters and notifiers. */
  ghost predicate IsRun(run: seq<State>) {
    && run != []
    && Init(run[0])
    && forall i :: 0 <= i < |run| - 1 ==> NextAt(run, i)
  }

  ghost predicate NextAt(run: seq<State>, i: nat) { i + 1 < |run| && Next(run[i], run[i + 1]) }

  lemma NextKeeps(s: State, s': State)
    requires Inv(s) && Next(s, s')
    ensures Inv(s')
  {
    var a :| Enabled(s, a) && Apply(s, a) == s';
    StepKeeps(s, a);
  }

  lemma InitInv(s: State)
    requires Init(s)
    ensures Inv(s)
  {
    forall i | 0 <= i < |s.nodes|
      ensures NodeOk(s.nodes[i], i in s.waitset, s.epoch) && HolderOk(s, i) && s.nodes[i].phase == Idle
    {
      assert s.nodes[i].(context := 0, epoch := 0).phase == Idle;
      assert s.nodes[i].(context := 0, epoch := 0).holder == None;
    }
  }

  lemma {:induction false} RunInv(run: seq<State>, n: nat)
    requires IsRun(run) && n < |run|
    ensures Inv(run[n])
    decreases n
  {
    if n == 0 {
      InitInv(run[0]);
    } else {
      RunInv(run, n - 1);
      assert NextAt(run, n - 1);
      NextKeeps(run[n - 1], run[n]);
    }
  }

  /** A signal is on its way to node i: given and not consumed, or owed by a notifier that has i on its list. */
  ghost predicate Assured(s: State, i: nat)
    requires i < |s.nodes|
  {
    s.nodes[i].sema == 1 || exists j :: 0 <= j < |s.notifiers| && i in Temp(s.notifiers[j])
  }

  /**
   A waiter that saw its condition false before notifier j changed the state and whose context matches is off the
   waitset, with its signal on the way, as soon as j is past its look at the waitset and its locked region.
   */
  lemma NoLostWakeup(run: seq<State>, n: nat, i: nat, j: nat)
    requires IsRun(run) && n < |run| && Concerns(run[n], i, j) && !Pending(run[n].notifiers[j])
    ensures i !in run[n].waitset && Assured(run[n], i)
  {
    var s := run[n];
    RunInv(run, n);
    assert NodeOk(s.nodes[i], i in s.waitset, s.epoch) && HolderOk(s, i);
  }

  /** Once every notifier is done, such a waiter can go on. */
  lemma WokenInTheEnd(run: seq<State>, n: nat, i: nat, j: nat)
    requires IsRun(run) && n < |run| && Concerns(run[n], i, j)
    requires forall k :: 0 <= k < |run[n].notifiers| ==> run[n].notifiers[k].stage == Finished
    ensures run[n].nodes[i].sema == 1
  {
    NoLostWakeup(run, n, i, j);
  }

  /**
   Signals and waits balance to within one, and outside a wait the flag says whether a signal is owed or unconsumed.
   */
  lemma SignalAccounting(run: seq<State>, n: nat, i: nat)
    requires IsRun(run) && n < |run| && i < |run[n].nodes|
    ensures var s, node := run[n], run[n].nodes[i];
      && 0 <= node.signals - node.waits <= 1 && node.sema == node.signals - node.waits
      && (!Engaged(node.phase) ==> (node.skipped <==> Assured(s, i)))
      && (i in s.waitset ==> !Assured(s, i))
  {
    var s := run[n];
    RunInv(run, n);
    assert NodeOk(s.nodes[i], i in s.waitset, s.epoch) && HolderOk(s, i);
    forall j | 0 <= j < |s.notifiers| && i in Temp(s.notifiers[j])
      ensures s.nodes[i].holder == Some(j)
    {
      assert NotifierOk(s, j);
    }
  }

  /** A node waits on its semaphore only while it is on the waitset or its signal is on the way. */
  lemma WaitsForSignal(run: seq<State>, n: nat, i: nat)
    requires IsRun(run) && n < |run| && i < |run[n].nodes|
    ensures var s := run[n];
      && (s.nodes[i].phase == Sleeping ==> i in s.waitset || Assured(s, i))
      && (s.nodes[i].phase == Pumping || (s.nodes[i].phase == Idle && s.nodes[i].skipped) ==> Assured(s, i))
  {
    var s := run[n];
    RunInv(run, n);
    assert NodeOk(s.nodes[i], i in s.waitset, s.epoch) && HolderOk(s, i);
  }

  /** A notifier that has begun can always go on. */
  lemma NotifierNeverStuck(run: seq<State>, n: nat, j: nat)
    requires IsRun(run) && n < |run| && j < |run[n].notifiers| && run[n].notifiers[j].stage != Finished
    ensures exists a: Step :: ByNotifier(a) && a.j == j && Enabled(run[n], a)
  {
    var s := run[n];
    RunInv(run, n);
    assert NotifierOk(s, j);
    if s.notifiers[j].stage.Signalling? {
      assert s.notifiers[j].stage.temp[0] in Temp(s.notifiers[j]);
      assert Enabled(s, Signal(j));
    } else {
      assert Enabled(s, Change(j)) || Enabled(s, Look(j)) || Enabled(s, Lock(j));
    }
  }

  /** No notifier refers to a destroyed node, and a node on a notifier's list is on no other list. */
  lemma ListsAreApart(run: seq<State>, n: nat, i: nat, j: nat)
    requires IsRun(run) && n < |run| && j < |run[n].notifiers| && i in Temp(run[n].notifiers[j])
    ensures var s := run[n];
      && i < |s.nodes| && s.nodes[i].phase != Dead && i !in s.waitset
      && forall k :: 0 <= k < |s.notifiers| && i in Temp(s.notifiers[k]) ==> k == j
  {
    var s := run[n];
    RunInv(run, n);
    assert NotifierOk(s, j);
    assert NodeOk(s.nodes[i], i in s.waitset, s.epoch);
    forall k | 0 <= k < |s.notifiers| && i in Temp(s.notifiers[k])
      ensures k == j
    {
      assert NotifierOk(s, k);
    }
  }

  /** commit_wait goes to sleep only if no notifier has taken the node off the waitset. */
  lemma SleepsOnlyListed(run: seq<State>, n: nat, i: nat)
    requires IsRun(run) && n < |run| && Enabled(run[n], Commit(i))
    requires Apply(run[n], Commit(i)).nodes[i].phase == Sleeping
    ensures i in run[n].waitset && !Assured(run[n], i)
  {
    RunInv(run, n);
    assert NodeOk(run[n].nodes[i], i in run[n].waitset, run[n].epoch);
    SignalAccounting(run, n, i);
  }

  /** notify_one takes the waiter that joined first; with a predicate it takes the last one that matches. */
  lemma {:induction false} OneTaken(q: seq<nat>, nodes: seq<Node>, n: Notifier)
    requires (n.kind == One || n.kind == Last) && forall x :: x in q ==> x < |nodes|
    ensures Taken(q, nodes, n) == [] <==> forall x :: x in q ==> !Matches(n, nodes[x].context)
    ensures Taken(q, nodes, n) != [] ==> |Taken(q, nodes, n)| == 1
    ensures Taken(q, nodes, n) != [] && n.kind == One ==> Taken(q, nodes, n)[0] == q[0]
    ensures Taken(q, nodes, n) != [] && n.kind == Last ==>
      exists k :: 0 <= k < |q| && LastMatch(q, nodes, n, k) && Taken(q, nodes, n)[0] == q[k]
  {
    MatchingMembers(q, nodes, n);
    if q != [] {
      var rest := q[..|q| - 1];
      assert q[|q| - 1] in q && forall x :: x in rest ==> x in q;
      OneTaken(rest, nodes, n);
      assert rest != [] ==> rest[0] in rest;
      if n.kind == Last && Matches(n, nodes[q[|q| - 1]].context) {
        assert LastMatch(q, nodes, n, |q| - 1);
      } else if n.kind == Last && Taken(rest, nodes, n) != [] {
        var k :| 0 <= k < |rest| && LastMatch(rest, nodes, n, k) && Taken(rest, nodes, n)[0] == rest[k];
        assert LastMatch(q, nodes, n, k);
      }
    }
  }

  predicate LastMatch(q: seq<nat>, nodes: seq<Node>, n: Notifier, k: nat) {
    && k < |q| && q[k] < |nodes| && Matches(n, nodes[q[k]].context)
    && forall l :: k < l < |q| ==> q[l] < |nodes| && !Matches(n, nodes[q[l]].context)
  }

  /**
   When notify_one, with or without a predicate, locks while a waiter matches, exactly one waiter leaves the waitset:
   one that matches, and its signal is on the way. If none matches the waitset stays as it is.
   */
  lemma OneWoken(run: seq<State>, n: nat, j: nat)
    requires IsRun(run) && n < |run| && Enabled(run[n], Lock(j))
    requires run[n].notifiers[j].kind == One || run[n].notifiers[j].kind == Last
    ensures var s, s', m := run[n], LockStep(run[n], j), run[n].notifiers[j];
      if exists i :: i in s.waitset && i < |s.nodes| && Matches(m, s.nodes[i].context)
      then exists k :: 0 <= k < |s.waitset| && s'.waitset == Cut(s.waitset, k) && WokenAt(s, s', m, s.waitset[k])
      else s'.waitset == s.waitset
  {
    var s, m := run[n], run[n].notifiers[j];
    var s', taken := LockStep(s, j), Taken(s.waitset, s.nodes, m);
    RunInv(run, n);
    OneTaken(s.waitset, s.nodes, m);
    TakenMembers(s.waitset, s.nodes, m);
    if taken == [] {
      WithoutNone(s.waitset, taken);
    } else {
      var k :| 0 <= k < |s.waitset| && s.waitset[k] == taken[0];
      assert taken == [s.waitset[k]];
      WithoutOne(s.waitset, k);
      LockEffect(s, j);
      assert s.waitset[k] in Temp(s'.notifiers[j]);
      assert WokenAt(s, s', m, s.waitset[k]);
    }
  }

  /** Waiter i matches, and after the step its signal is on the way. */
  ghost predicate WokenAt(s: State, s': State, m: Notifier, i: nat) {
    i < |s.nodes| == |s'.nodes| && Matches(m, s.nodes[i].context) && Assured(s', i)
  }
}
