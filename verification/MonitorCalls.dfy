/** What a whole wait or notification achieves, in every run of the concurrent monitor. */
module MonitorCalls {
  import opened Wrappers
  import opened Sequences
  import opened Monitor
  import opened MonitorRuns

  predicate Takes(s: State, a: Step, s': State) { Enabled(s, a) && Apply(s, a) == s' }

  /** A run with the steps it takes. */
  ghost predicate IsTrail(run: seq<State>, steps: seq<Step>) {
    && |run| == |steps| + 1 && Init(run[0])
    && forall k :: 0 <= k < |steps| ==> StepAt(run, steps, k)
  }

  predicate StepAt(run: seq<State>, steps: seq<Step>, k: nat) {
    k < |steps| && k + 1 < |run| && Takes(run[k], steps[k], run[k + 1])
  }

  lemma TrailInv(run: seq<State>, steps: seq<Step>, n: nat)
    requires IsTrail(run, steps) && n < |run|
    ensures Inv(run[n])
  {
    forall i | 0 <= i < |run| - 1
      ensures NextAt(run, i)
    {
      assert StepAt(run, steps, i);
    }
    RunInv(run, n);
  }

  // ---------------------------------------------------------------- commit_wait

  /** Some notifier takes the lock between steps m and n. */
  ghost predicate LockedBetween(steps: seq<Step>, m: nat, n: nat) {
    exists k :: m <= k < n && k < |steps| && steps[k].Lock?
  }

  lemma EpochStep(s: State, a: Step)
    requires Enabled(s, a)
    ensures Apply(s, a).epoch == if a.Lock? then s.epoch + 1 else s.epoch
  {
  }

  /** The epoch counts the locked regions of the notifiers. */
  lemma {:induction false} EpochGrows(run: seq<State>, steps: seq<Step>, m: nat, n: nat)
    requires IsTrail(run, steps) && m <= n < |run|
    ensures run[m].epoch <= run[n].epoch && (run[m].epoch < run[n].epoch <==> LockedBetween(steps, m, n))
    decreases n
  {
    if m < n {
      var l := n - 1;
      assert StepAt(run, steps, l);
      EpochGrows(run, steps, m, l);
      EpochStep(run[l], steps[l]);
      OneMoreStep(steps, m, l);
    }
  }

  lemma OneMoreStep(steps: seq<Step>, m: nat, l: nat)
    requires m <= l < |steps|
    ensures LockedBetween(steps, m, l + 1) <==> LockedBetween(steps, m, l) || steps[l].Lock?
  {
  }

  lemma NodeStep(s: State, a: Step, i: nat)
    requires Enabled(s, a) && i < |s.nodes|
    ensures i < |Apply(s, a).nodes|
    ensures a != Add(i) ==> Apply(s, a).nodes[i].epoch == s.nodes[i].epoch
  {
  }

  /** A waiter keeps the epoch it took when it joined. */
  lemma {:induction false} NodeEpoch(run: seq<State>, steps: seq<Step>, m: nat, n: nat, i: nat)
    requires IsTrail(run, steps) && m < n < |run| && steps[m] == Add(i)
    requires forall k :: m < k < n ==> steps[k] != Add(i)
    ensures i < |run[n].nodes| && run[n].nodes[i].epoch == run[m].epoch
    decreases n
  {
    var l := n - 1;
    assert StepAt(run, steps, l);
    if m < l {
      NodeEpoch(run, steps, m, l, i);
      NodeStep(run[l], steps[l], i);
    }
  }

  /**
   commit_wait goes to sleep if no notifier has taken the lock since the waiter joined the waitset, and cancels the wait
   to check the condition again if one has.
   */
  lemma CommitDecides(run: seq<State>, steps: seq<Step>, m: nat, n: nat, i: nat)
    requires IsTrail(run, steps) && m < n < |steps| && steps[m] == Add(i) && steps[n] == Commit(i)
    requires forall k :: m < k < n ==> steps[k] != Add(i)
    ensures i < |run[n + 1].nodes|
    ensures run[n + 1].nodes[i].phase == if LockedBetween(steps, m + 1, n) then Cancelling(true) else Sleeping
  {
    assert StepAt(run, steps, m) && StepAt(run, steps, n);
    EpochStep(run[m], steps[m]);
    NodeEpoch(run, steps, m, n, i);
    EpochGrows(run, steps, m + 1, n);
    CommitStep(run[n], i);
  }

  lemma CommitStep(s: State, i: nat)
    requires Enabled(s, Commit(i))
    ensures i < |Apply(s, Commit(i)).nodes|
    ensures Apply(s, Commit(i)).nodes[i].phase == if s.nodes[i].epoch == s.epoch then Sleeping else Cancelling(true)
  {
  }

  // ---------------------------------------------------------------- wait

  /** The waiter is on its way out of wait without having slept. */
  predicate Quitting(p: Phase) { (p.Cancelling? || p.Removing?) && !p.again }

  /** The wait that began after step m has seen its condition hold. */
  ghost predicate SawTrue(steps: seq<Step>, m: nat, n: nat, i: nat) {
    exists k :: m < k < n && k < |steps| && steps[k] == Check(i, true)
  }

  lemma QuitStep(s: State, a: Step, i: nat)
    requires Enabled(s, a) && i < |s.nodes| && s.nodes[i].phase != Idle
    ensures i < |Apply(s, a).nodes|
    ensures Quitting(Apply(s, a).nodes[i].phase) ==> Quitting(s.nodes[i].phase) || a == Check(i, true)
    ensures Apply(s, a).nodes[i].phase == Idle ==> Quitting(s.nodes[i].phase) || a == Sleep(i)
  {
  }

  /** Once the condition held, the waiter leaves without sleeping or joining the waitset again. */
  lemma LeaveStep(s: State, a: Step, i: nat)
    requires Enabled(s, a) && i < |s.nodes| && Quitting(s.nodes[i].phase)
    ensures i < |Apply(s, a).nodes|
    ensures Quitting(Apply(s, a).nodes[i].phase) || Apply(s, a).nodes[i].phase == Idle
  {
  }

  lemma {:induction false} Waiting(run: seq<State>, steps: seq<Step>, m: nat, n: nat, i: nat)
    requires IsTrail(run, steps) && m < n < |run| && steps[m] == BeginWait(i)
    requires forall k :: m < k < n ==> i < |run[k].nodes| && run[k].nodes[i].phase != Idle
    ensures i < |run[n].nodes|
    ensures Quitting(run[n].nodes[i].phase) ==> SawTrue(steps, m, n, i)
    ensures run[n].nodes[i].phase == Idle ==> steps[n - 1] == Sleep(i) || SawTrue(steps, m, n, i)
    decreases n
  {
    var l := n - 1;
    assert StepAt(run, steps, l);
    if m < l {
      Waiting(run, steps, m, l, i);
      QuitStep(run[l], steps[l], i);
      assert SawTrue(steps, m, n, i) <==> SawTrue(steps, m, l, i) || steps[l] == Check(i, true);
    }
  }

  /** wait returns only after it consumed a signal, or saw its condition hold. */
  lemma WaitReturns(run: seq<State>, steps: seq<Step>, m: nat, n: nat, i: nat)
    requires IsTrail(run, steps) && m < n < |run| && steps[m] == BeginWait(i)
    requires forall k :: m < k < n ==> i < |run[k].nodes| && run[k].nodes[i].phase != Idle
    requires i < |run[n].nodes| && run[n].nodes[i].phase == Idle
    ensures steps[n - 1] == Sleep(i) || exists k :: m < k < n && steps[k] == Check(i, true)
  {
    Waiting(run, steps, m, n, i);
  }

  /** Once wait has seen its condition hold, it does nothing but leave. */
  lemma {:induction false} LeavesOnTrue(run: seq<State>, steps: seq<Step>, m: nat, n: nat, i: nat)
    requires IsTrail(run, steps) && m < n < |run| && steps[m] == Check(i, true)
    requires forall k :: m < k < n ==> i < |run[k].nodes| && run[k].nodes[i].phase != Idle
    ensures i < |run[n].nodes| && (run[n].nodes[i].phase == Idle || Quitting(run[n].nodes[i].phase))
    decreases n
  {
    var l := n - 1;
    assert StepAt(run, steps, l);
    if m < l {
      LeavesOnTrue(run, steps, m, l, i);
      LeaveStep(run[l], steps[l], i);
    }
  }

  /** How far a waiter is from the end of its round. */
  function RoundLeft(p: Phase): nat {
    match p
    case Idle => 0
    case Dead => 0
    case Sleeping => 1
    case Removing(_) => 1
    case Cancelling(_) => 2
    case Committing => 3
    case Checking => 4
    case Adding => 5
    case Announcing => 6
    case Pumping => 7
  }

  /** Every step of a waiter inside wait brings it closer to the end of its round, or begins the next one. */
  lemma RoundGoesOn(s: State, a: Step)
    requires Enabled(s, a) && !ByNotifier(a) && !a.BeginWait? && !a.Destroy?
    ensures a.i < |Apply(s, a).nodes|
    ensures var p, p' := s.nodes[a.i].phase, Apply(s, a).nodes[a.i].phase;
      RoundLeft(p') < RoundLeft(p) || ((p.Cancelling? || p.Removing?) && p.again && p' in {Pumping, Announcing})
  {
  }

  // ---------------------------------------------------------------- notifications

  /** The notifier has seen an empty waitset, or has locked. */
  ghost predicate Notified(run: seq<State>, steps: seq<Step>, n: nat, j: nat)
    requires n < |run| == |steps| + 1
  {
    exists k :: 0 <= k < n && (steps[k] == Lock(j) || (steps[k] == Look(j) && run[k].waitset == []))
  }

  lemma StageStep(s: State, a: Step, j: nat)
    requires Enabled(s, a) && j < |s.notifiers|
    ensures j < |Apply(s, a).notifiers| && Apply(s, a).notifiers[j].kind == s.notifiers[j].kind
    ensures !Pending(Apply(s, a).notifiers[j]) ==>
      !Pending(s.notifiers[j]) || a == Lock(j) || (a == Look(j) && s.waitset == [])
  {
  }

  /** A notifier that is done has locked the monitor at some moment, or has seen that nobody waits. */
  lemma {:induction false} NotifyCall(run: seq<State>, steps: seq<Step>, n: nat, j: nat)
    requires IsTrail(run, steps) && n < |run| && j < |run[n].notifiers| && !Pending(run[n].notifiers[j])
    ensures Notified(run, steps, n, j)
    decreases n
  {
    if n > 0 {
      var l := n - 1;
      assert StepAt(run, steps, l);
      assert |run[l].notifiers| == |run[n].notifiers|;
      StageStep(run[l], steps[l], j);
      if !Pending(run[l].notifiers[j]) {
        NotifyCall(run, steps, l, j);
      }
      NotifiedStill(run, steps, l, j);
    }
  }

  lemma NotifiedStill(run: seq<State>, steps: seq<Step>, l: nat, j: nat)
    requires l < |steps| == |run| - 1
    requires Notified(run, steps, l, j) || steps[l] == Lock(j) || (steps[l] == Look(j) && run[l].waitset == [])
    ensures Notified(run, steps, l + 1, j)
  {
    if Notified(run, steps, l, j) {
      var k :| 0 <= k < l && (steps[k] == Lock(j) || (steps[k] == Look(j) && run[k].waitset == []));
      assert steps[k] == Lock(j) || (steps[k] == Look(j) && run[k].waitset == []);
    }
  }

  /** A broadcast takes exactly the waiters that match off the waitset, and those have a signal coming. */
  lemma AllWoken(run: seq<State>, n: nat, j: nat)
    requires IsRun(run) && n < |run| && Enabled(run[n], Lock(j)) && Broadcasts(run[n].notifiers[j])
    ensures var s, s', m := run[n], LockStep(run[n], j), run[n].notifiers[j];
      && (forall i :: i in s'.waitset <==> i in s.waitset && i < |s.nodes| && !Matches(m, s.nodes[i].context))
      && (forall i :: i in s.waitset && i !in s'.waitset ==> WokenAt(s, s', m, i))
      && s'.epoch == s.epoch + 1
  {
    var s, s', m := run[n], LockStep(run[n], j), run[n].notifiers[j];
    RunInv(run, n);
    TakenMembers(s.waitset, s.nodes, m);
    LockEffect(s, j);
    forall i | i in s.waitset && i !in s'.waitset
      ensures WokenAt(s, s', m, i)
    {
      assert i in Temp(s'.notifiers[j]);
    }
  }

  // ---------------------------------------------------------------- the order of signals

  /** a comes before b in q. */
  ghost predicate Before(q: seq<nat>, a: nat, b: nat) { exists k, l :: 0 <= k < l < |q| && q[k] == a && q[l] == b }

  lemma {:induction false} MatchingOrder(q: seq<nat>, nodes: seq<Node>, n: Notifier, x: nat, y: nat)
    requires x < y < |q| && q[x] < |nodes| && q[y] < |nodes|
    requires Matches(n, nodes[q[x]].context) && Matches(n, nodes[q[y]].context)
    ensures Before(Matching(q, nodes, n), q[x], q[y])
  {
    var front := q[..|q| - 1];
    var before := Matching(front, nodes, n);
    if y == |q| - 1 {
      MatchingMembers(front, nodes, n);
      assert front[x] in front;
      var k :| 0 <= k < |before| && before[k] == q[x];
      var all := before + [q[y]];
      assert all[k] == q[x] && all[|before|] == q[y];
    } else {
      MatchingOrder(front, nodes, n, x, y);
      var k, l :| 0 <= k < l < |before| && before[k] == q[x] && before[l] == q[y];
      var all := Matching(q, nodes, n);
      assert all[k] == q[x] && all[l] == q[y];
    }
  }

  lemma BackwardsOrder(q: seq<nat>, a: nat, b: nat)
    requires Before(q, a, b)
    ensures Before(Backwards(q), b, a)
  {
    var k, l :| 0 <= k < l < |q| && q[k] == a && q[l] == b;
    var r := Backwards(q);
    assert r[|q| - 1 - l] == b && r[|q| - 1 - k] == a;
  }

  /** notify_all signals the waiters in the order they joined; notify with a predicate the last one first. */
  lemma SignalOrder(run: seq<State>, n: nat, j: nat, x: nat, y: nat)
    requires IsRun(run) && n < |run| && Enabled(run[n], Lock(j)) && Broadcasts(run[n].notifiers[j])
    requires x < y < |run[n].waitset|
    requires var s, m := run[n], run[n].notifiers[j];
      forall k :: k in {x, y} ==> s.waitset[k] < |s.nodes| && Matches(m, s.nodes[s.waitset[k]].context)
    ensures var s, temp := run[n], Temp(LockStep(run[n], j).notifiers[j]);
      if s.notifiers[j].kind == All then Before(temp, s.waitset[x], s.waitset[y])
      else Before(temp, s.waitset[y], s.waitset[x])
  {
    var s, m := run[n], run[n].notifiers[j];
    MatchingOrder(s.waitset, s.nodes, m, x, y);
    if m.kind == Each {
      BackwardsOrder(Matching(s.waitset, s.nodes, m), s.waitset[x], s.waitset[y]);
    }
  }
}
