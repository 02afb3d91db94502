/** What a whole call of advertise_new_work or out_of_work achieves, and what an arena's request comes to. */
module ArenaDemandCalls {
  import opened ArenaDemand

  predicate Takes(s: State, a: Step, s': State) { Enabled(s, a) && Apply(s, a) == s' }

  /** A run with the steps it takes. */
  ghost predicate IsTrail(run: seq<State>, steps: seq<Step>) {
    && |run| == |steps| + 1 && Init(run[0])
    && forall k :: 0 <= k < |steps| ==> StepAt(run, steps, k)
  }

  predicate StepAt(run: seq<State>, steps: seq<Step>, k: nat) {
    k < |steps| && k + 1 < |run| && Takes(run[k], steps[k], run[k + 1])
  }

  /** The call that thread i began at step m is under way up to state n. */
  ghost predicate Busy(run: seq<State>, m: nat, n: nat, i: nat) {
    forall k :: m < k < n ==> k < |run| && i < |run[k].threads| && run[k].threads[i] != Idle
  }

  // ---------------------------------------------------------------- the request

  function Distance(x: int, y: int): nat { if x < y then y - x else x - y }

  /**
   A request comes to the number of workers nearest to what was asked for that the arena may have: at most
   my_max_num_workers, or one if it has none and mandatory concurrency is requested.
   */
  lemma NearestAllowed(r: Request, y: int)
    ensures var most := if r.maxNumWorkers == 0 && r.mandatory > 0 then 1 else r.maxNumWorkers;
      && 0 <= MaxWorkers(r) <= most
      && (0 <= y <= most ==> Distance(MaxWorkers(r), r.workers) <= Distance(y, r.workers))
      && MinWorkers(r) == if r.mandatory > 0 then 1 else 0
  {
  }

  // ---------------------------------------------------------------- advertise_new_work

  /** my_pool_state has been up since the call began. */
  ghost predicate PoolRaised(run: seq<State>, m: nat, n: nat) { exists k :: m < k <= n && k < |run| && run[k].pool }

  ghost predicate MandatoryRaised(run: seq<State>, m: nat, n: nat) {
    exists k :: m < k <= n && k < |run| && run[k].mandatory
  }

  /** Nobody cleared a flag in the meantime. */
  ghost predicate NoClear(steps: seq<Step>, m: nat, n: nat) {
    forall k :: m < k < n && k < |steps| ==> !((steps[k].ClearMandatory? || steps[k].ClearPool?) && steps[k].cleared)
  }

  /** What a call of advertise_new_work has done so far. */
  ghost predicate Advertised(run: seq<State>, steps: seq<Step>, m: nat, n: nat, i: nat, enqueued: bool)
    requires n < |run|
  {
    var s := run[n];
    && i < |s.threads| && (s.threads[i] == TestingMandatory || s.threads[i].TestingPool? || s.threads[i].Asking?)
    && (s.threads[i] == TestingMandatory ==> enqueued)
    && (s.threads[i] != TestingMandatory && enqueued ==>
      MandatoryRaised(run, m, n) && (NoClear(steps, m, n) ==> s.mandatory))
    && (s.threads[i].Asking? ==> PoolRaised(run, m, n) && (NoClear(steps, m, n) ==> s.pool))
  }

  /** A step of thread i, or of another thread. */
  lemma AdvertiseStep(s: State, a: Step, i: nat)
    requires Enabled(s, a) && i < |s.threads|
    requires s.threads[i] == TestingMandatory || s.threads[i].TestingPool? || s.threads[i].Asking?
    ensures var s' := Apply(s, a);
      && i < |s'.threads|
      && (match s.threads[i]
          case TestingMandatory =>
            s'.threads[i] == TestingMandatory || (s'.threads[i].TestingPool? && s'.mandatory)
          case TestingPool(_) => s'.threads[i] == s.threads[i] || (s'.threads[i].Asking? && s'.pool)
          case _ => s'.threads[i] == s.threads[i] || s'.threads[i] == Idle)
      && (s.mandatory && !s'.mandatory ==> a.ClearMandatory? && a.cleared)
      && (s.pool && !s'.pool ==> a.ClearPool? && a.cleared)
  {
  }

  lemma RaisedStill(run: seq<State>, m: nat, n: nat)
    requires m < n && n + 1 < |run|
    ensures PoolRaised(run, m, n) || run[n + 1].pool ==> PoolRaised(run, m, n + 1)
    ensures MandatoryRaised(run, m, n) || run[n + 1].mandatory ==> MandatoryRaised(run, m, n + 1)
  {
    if PoolRaised(run, m, n) {
      var k :| m < k <= n && k < |run| && run[k].pool;
      assert run[k].pool && k <= n + 1;
    }
    if MandatoryRaised(run, m, n) {
      var k :| m < k <= n && k < |run| && run[k].mandatory;
      assert run[k].mandatory && k <= n + 1;
    }
  }

  lemma ClearBefore(steps: seq<Step>, m: nat, l: nat)
    requires m < l < |steps| && NoClear(steps, m, l + 1)
    ensures NoClear(steps, m, l) && !((steps[l].ClearMandatory? || steps[l].ClearPool?) && steps[l].cleared)
  {
  }

  lemma AdvertisedStill(run: seq<State>, steps: seq<Step>, m: nat, l: nat, i: nat, enqueued: bool)
    requires m < l < |steps| == |run| - 1 && Advertised(run, steps, m, l, i, enqueued)
    requires Takes(run[l], steps[l], run[l + 1])
    ensures i < |run[l + 1].threads|
    ensures run[l + 1].threads[i] != Idle ==> Advertised(run, steps, m, l + 1, i, enqueued)
    ensures run[l + 1].threads[i] == Idle ==>
      && PoolRaised(run, m, l + 1) && (enqueued ==> MandatoryRaised(run, m, l + 1))
      && (NoClear(steps, m, l + 1) ==> run[l + 1].pool && (enqueued ==> run[l + 1].mandatory))
  {
    AdvertiseStep(run[l], steps[l], i);
    RaisedStill(run, m, l);
    if NoClear(steps, m, l + 1) {
      ClearBefore(steps, m, l);
    }
  }

  /**
   advertise_new_work has raised my_pool_state, and my_mandatory_concurrency for enqueued work, at some moment of the
   call; unless somebody cleared a flag in the meantime, they are up when it returns.
   */
  lemma {:induction false} AdvertiseCall(run: seq<State>, steps: seq<Step>, m: nat, n: nat, i: nat, enqueued: bool)
    requires IsTrail(run, steps) && m < n < |run| && steps[m] == Advertise(i, enqueued) && Busy(run, m, n, i)
    ensures i < |run[n].threads|
    ensures run[n].threads[i] != Idle ==> Advertised(run, steps, m, n, i, enqueued)
    ensures run[n].threads[i] == Idle ==>
      && PoolRaised(run, m, n) && (enqueued ==> MandatoryRaised(run, m, n))
      && (NoClear(steps, m, n) ==> run[n].pool && (enqueued ==> run[n].mandatory))
    decreases n
  {
    var l := n - 1;
    assert StepAt(run, steps, l);
    if m < l {
      AdvertiseCall(run, steps, m, l, i, enqueued);
      AdvertisedStill(run, steps, m, l, i, enqueued);
    }
  }

  // ---------------------------------------------------------------- out_of_work

  ghost predicate TriedMandatory(steps: seq<Step>, m: nat, n: nat, i: nat) {
    exists k :: m < k < n && k < |steps| && steps[k].ClearMandatory? && steps[k].i == i
  }

  ghost predicate TriedPool(steps: seq<Step>, m: nat, n: nat, i: nat) {
    exists k :: m < k < n && k < |steps| && steps[k].ClearPool? && steps[k].i == i
  }

  lemma OutOfWorkStep(s: State, a: Step, i: nat)
    requires Enabled(s, a) && i < |s.threads|
    requires s.threads[i] == ClearingMandatory || s.threads[i].ClearingPool? || s.threads[i].Releasing?
    ensures var s' := Apply(s, a);
      && i < |s'.threads|
      && (match s.threads[i]
          case ClearingMandatory =>
            s'.threads[i] == ClearingMandatory || (s'.threads[i].ClearingPool? && a.ClearMandatory? && a.i == i)
          case ClearingPool(_) =>
            s'.threads[i] == s.threads[i] || (s'.threads[i].Releasing? && a.ClearPool? && a.i == i)
          case _ => s'.threads[i] == s.threads[i] || s'.threads[i] == Idle)
  {
  }

  lemma TriedStill(steps: seq<Step>, m: nat, l: nat, i: nat)
    requires m < l < |steps|
    ensures TriedMandatory(steps, m, l + 1, i) <==>
      TriedMandatory(steps, m, l, i) || (steps[l].ClearMandatory? && steps[l].i == i)
    ensures TriedPool(steps, m, l + 1, i) <==> TriedPool(steps, m, l, i) || (steps[l].ClearPool? && steps[l].i == i)
  {
  }

  /** out_of_work tries to clear both flags before it returns. */
  lemma {:induction false} OutOfWorkCall(run: seq<State>, steps: seq<Step>, m: nat, n: nat, i: nat)
    requires IsTrail(run, steps) && m < n < |run| && steps[m] == OutOfWork(i) && Busy(run, m, n, i)
    ensures i < |run[n].threads|
    ensures var t := run[n].threads[i]; t in {Idle, ClearingMandatory} || t.ClearingPool? || t.Releasing?
    ensures run[n].threads[i] != ClearingMandatory ==> TriedMandatory(steps, m, n, i)
    ensures run[n].threads[i] == Idle || run[n].threads[i].Releasing? ==> TriedPool(steps, m, n, i)
    decreases n
  {
    var l := n - 1;
    assert StepAt(run, steps, l);
    if m < l {
      OutOfWorkCall(run, steps, m, l, i);
      OutOfWorkStep(run[l], steps[l], i);
      TriedStill(steps, m, l, i);
    }
  }

  /** Steps left of a thread's call. */
  function CallLeft(t: Thread): nat {
    match t
    case Idle => 0
    case TestingMandatory => 3
    case TestingPool(_) => 2
    case Asking(_, _) => 1
    case ClearingMandatory => 3
    case ClearingPool(_) => 2
    case Releasing(_, _) => 1
  }

  lemma CallsAreShort(s: State, a: Step)
    requires Enabled(s, a) && !a.Advertise? && !a.OutOfWork?
    ensures a.i < |Apply(s, a).threads| && CallLeft(Apply(s, a).threads[a.i]) < CallLeft(s.threads[a.i])
  {
  }
}
