/** What a whole call of spawn, get_task or steal_task achieves, in every run of the task pool. */
module TaskPoolCalls {
  import opened Wrappers
  import opened Relocation
  import opened TaskPool
  import opened TaskPoolProof
  import opened TaskPoolRuns

  predicate Takes(s: State, a: Step, s': State) { Enabled(s, a) && Apply(s, a) == s' }

  /** A run with the steps it takes. */
  ghost predicate IsTrail(run: seq<State>, steps: seq<Step>) {
    && |run| == |steps| + 1 && Init(run[0])
    && forall k :: 0 <= k < |steps| ==> StepAt(run, steps, k)
  }

  predicate StepAt(run: seq<State>, steps: seq<Step>, k: nat) {
    k < |steps| && k + 1 < |run| && Takes(run[k], steps[k], run[k + 1])
  }

  lemma TrailIsRun(run: seq<State>, steps: seq<Step>)
    requires IsTrail(run, steps)
    ensures IsRun(run)
  {
    forall i | 0 <= i < |run| - 1
      ensures NextAt(run, i)
    {
      assert StepAt(run, steps, i);
    }
  }

  lemma TrailInv(run: seq<State>, steps: seq<Step>, n: nat)
    requires IsTrail(run, steps) && n < |run|
    ensures Inv(run[n])
  {
    TrailIsRun(run, steps);
    RunKeeps(run, n);
  }

  // ---------------------------------------------------------------- spawn

  /** The task being spawned is on its way into the pool, or there. */
  predicate Spawning(s: State, t: Task) {
    t in s.spawned || ((s.owner.Storing? || s.owner.Committing?) && s.owner.task == t)
  }

  lemma SpawningKept(s: State, a: Step, t: Task)
    requires Enabled(s, a) && Spawning(s, t)
    ensures Spawning(Apply(s, a), t)
  {
  }

  /** A spawn that is over has added its task to the pool. */
  lemma {:induction false} SpawnCall(run: seq<State>, steps: seq<Step>, m: nat, n: nat, t: Task)
    requires IsTrail(run, steps) && m < n < |run| && steps[m] == Spawn(t)
    ensures Spawning(run[n], t)
    ensures run[n].owner.Idle? ==> t in run[n].spawned
    decreases n
  {
    var l := n - 1;
    assert StepAt(run, steps, l);
    if m < l {
      SpawnCall(run, steps, m, l, t);
      SpawningKept(run[l], steps[l], t);
    }
  }

  // ---------------------------------------------------------------- get_task

  /** Between the first and the last step of get_task. */
  predicate Getting(o: Owner) { Searching(o) || o.Leaving? }

  lemma GettingKept(s: State, a: Step)
    requires Enabled(s, a) && Getting(s.owner) && a != Leave
    ensures Getting(Apply(s, a).owner) && Apply(s, a).owner.g.iso == s.owner.g.iso
  {
  }

  lemma {:induction false} GettingFor(run: seq<State>, steps: seq<Step>, m: nat, n: nat, iso: nat)
    requires IsTrail(run, steps) && m < n < |run| && steps[m] == BeginGet(iso)
    requires forall k :: m < k < n ==> steps[k] != Leave
    ensures Getting(run[n].owner) && run[n].owner.g.iso == iso
    decreases n
  {
    var l := n - 1;
    assert StepAt(run, steps, l);
    if m < l {
      GettingFor(run, steps, m, l, iso);
      GettingKept(run[l], steps[l]);
    }
  }

  /** The step returns task t, which fits. */
  predicate ReturnedTo(s: State, s': State, t: Task, iso: nat) {
    Fits(t, iso) && s'.log == s.log + [Claim(t, iso)]
  }

  predicate Fits(t: Task, iso: nat) { iso == NO_ISOLATION || t.isolation == iso }

  /**
   get_task returns a task that fits the isolation it was called with, and returns none only if no task left in the pool
   fits.
   */
  lemma GetCall(run: seq<State>, steps: seq<Step>, m: nat, n: nat, iso: nat)
    requires IsTrail(run, steps) && m < n < |steps| && steps[m] == BeginGet(iso) && steps[n] == Leave
    requires forall k :: m < k < n ==> steps[k] != Leave
    ensures if run[n].owner.Leaving? && run[n].owner.g.result.Some?
      then ReturnedTo(run[n], run[n + 1], run[n].owner.g.result.value, iso)
      else run[n + 1].log == run[n].log && NoneFits(run[n + 1], iso)
  {
    GettingFor(run, steps, m, n, iso);
    assert StepAt(run, steps, n);
    TrailIsRun(run, steps);
    RunKeeps(run, n);
    if run[n].owner.g.result.None? {
      var s' := run[n + 1];
      forall i | Lo(s') <= i < Hi(s')
        ensures Unfit(s', i, iso)
      {
        GetTaskIsExhaustive(run, n, i);
      }
    }
  }

  /** Cell i is there and holds no task that fits. */
  predicate Unfit(s: State, i: int, iso: nat) {
    0 <= i < |s.cells| && (s.cells[i].Full? ==> !Fits(s.cells[i].task, iso))
  }

  /** No task of the pool fits. */
  ghost predicate NoneFits(s: State, iso: nat) { forall i :: Lo(s) <= i < Hi(s) ==> Unfit(s, i, iso) }

  /** The owner takes the last task of the pool that fits. */
  lemma OwnerTakesLast(run: seq<State>, n: nat, i: int)
    requires IsRun(run) && n < |run| && run[n].owner.Consuming?
    ensures var s, g := run[n], run[n].owner.g;
      && g.result.Some? && 0 <= g.t < |s.cells| && s.cells[g.t] == Full(g.result.value) && Fits(g.result.value, g.iso)
      && (g.t < i < Hi(s) && 0 <= i < |s.cells| && s.cells[i].Full? ==> !Fits(s.cells[i].task, g.iso))
  {
    RunKeeps(run, n);
  }

  /** get_task takes the lock only if it has seen a thief ahead of it. */
  lemma LocksOnConflict(run: seq<State>, steps: seq<Step>, n: nat)
    requires IsTrail(run, steps) && n < |steps| && !run[n].owner.Locking? && run[n + 1].owner.Locking?
    ensures run[n].head > run[n].tail == run[n + 1].owner.g.t
  {
    assert StepAt(run, steps, n);
    TrailInv(run, steps, n);
    ConflictStep(run[n], steps[n]);
  }

  lemma ConflictStep(s: State, a: Step)
    requires Shape(s) && Enabled(s, a) && !s.owner.Locking? && Apply(s, a).owner.Locking?
    ensures s.head > s.tail == Apply(s, a).owner.g.t
  {
  }

  // ---------------------------------------------------------------- the owner's calls end

  /** Bounds the steps left of the owner's call. */
  function OwnerLeft(s: State): int {
    match s.owner
    case Idle => 0
    case Storing(_, _) => 3
    case Committing(_, _) => 2
    case Publishing => 1
    case Lowering(g) => 6 * (g.t - Lo(s)) + 7
    case Peeking(g) => 6 * (g.t - Lo(s)) + 11
    case Locking(g) => 6 * (g.t - Lo(s)) + 10
    case Examining(g) => 6 * (g.t - Lo(s)) + 9
    case Consuming(g) => 6 * (g.t - Lo(s)) + 8
    case Leaving(_) => 1
  }

  predicate BeginsCall(a: Step) { a.Spawn? || a.BeginGet? }

  lemma OwnerLowers(s: State, a: Step)
    requires Shape(s) && Enabled(s, a) && !ByThief(a) && !a.BeginSteal? && !BeginsCall(a)
    ensures 0 <= OwnerLeft(Apply(s, a)) < OwnerLeft(s)
  {
  }

  lemma ThiefDoesNotRaise(s: State, a: Step)
    requires Shape(s) && Enabled(s, a) && (ByThief(a) || a.BeginSteal?)
    ensures OwnerLeft(Apply(s, a)) <= OwnerLeft(s) && Apply(s, a).owner == s.owner
  {
  }

  /** Every step of the owner brings its call closer to the end, and no step of a thief takes it further away. */
  lemma OwnerCallEnds(run: seq<State>, n: nat, a: Step)
    requires IsRun(run) && n < |run| && Enabled(run[n], a) && !BeginsCall(a)
    ensures if ByThief(a) || a.BeginSteal? then OwnerLeft(Apply(run[n], a)) <= OwnerLeft(run[n])
      else 0 <= OwnerLeft(Apply(run[n], a)) < OwnerLeft(run[n])
  {
    RunKeeps(run, n);
    if ByThief(a) || a.BeginSteal? {
      ThiefDoesNotRaise(run[n], a);
    } else {
      OwnerLowers(run[n], a);
    }
  }

  // ---------------------------------------------------------------- steal_task

  /** The thief reads task t, a proxy that is likely to be taken from its mailbox. */
  predicate LikelyMail(s: State, a: Step, t: Task) {
    a == Inspect(true) && s.thief.Inspecting? && Read(s, s.thief.f.h - 1) == Full(t) && t.proxy
  }

  /** Task t is not for a thief that began after step m: another isolation, or passed over as likely to be mailed. */
  ghost predicate Excused(run: seq<State>, steps: seq<Step>, m: nat, n: nat, t: Task, iso: nat)
    requires n < |run| && |steps| == |run| - 1
  {
    !Fits(t, iso) || exists k :: m < k < n && LikelyMail(run[k], steps[k], t)
  }

  /** How far the thief has looked. */
  function LookedTo(t: Thief): int
    requires Walking(t)
  {
    if t.Raising? then t.f.h else t.f.h - 1
  }

  /** The thief is in the loop of steal_task. */
  predicate Walking(t: Thief) { t.Raising? || t.Probing? || t.Inspecting? || t.Taking? }

  /** Every task between the restored head and the thief is not for it. */
  ghost predicate LookedOver(run: seq<State>, steps: seq<Step>, m: nat, n: nat, iso: nat)
    requires n < |run| && |steps| == |run| - 1
  {
    var s := run[n];
    Walking(s.thief) && s.thief.f.iso == iso
    && forall i :: s.thief.f.h0 <= i < LookedTo(s.thief) && 0 <= i < |s.cells| && s.cells[i].Full? ==>
      Excused(run, steps, m, n, s.cells[i].task, iso)
  }

  /** Behind the thief the owner only takes tasks out. */
  lemma BehindThief(s: State, a: Step, i: int)
    requires Shape(s) && Enabled(s, a) && Walking(s.thief) && !ByThief(a)
    requires s.thief.f.h0 <= i < LookedTo(s.thief) && 0 <= i < |s.cells|
    ensures var s' := Apply(s, a);
      s'.thief == s.thief && |s'.cells| == |s.cells| && (s'.cells[i] == s.cells[i] || !s'.cells[i].Full?)
  {
  }

  /** A thief's step inside the loop leaves behind only tasks that are not for it. */
  lemma WalkOn(s: State, a: Step, i: int)
    requires Shape(s) && Enabled(s, a) && Walking(s.thief) && ByThief(a) && Walking(Apply(s, a).thief)
    requires var s' := Apply(s, a);
      s'.thief.f.h0 <= i < LookedTo(s'.thief) && 0 <= i < |s'.cells| && s'.cells[i].Full?
    ensures |Apply(s, a).cells| == |s.cells| && Apply(s, a).cells[i] == s.cells[i] && s.thief.f.h0 <= i
    ensures i < LookedTo(s.thief) || !Fits(s.cells[i].task, s.thief.f.iso) || LikelyMail(s, a, s.cells[i].task)
    ensures Apply(s, a).thief.f.iso == s.thief.f.iso
  {
  }

  /** Whatever the step, a task behind the thief was there before and is not for it. */
  lemma Passed(s: State, a: Step, i: int)
    requires Shape(s) && Enabled(s, a) && Walking(s.thief) && Walking(Apply(s, a).thief)
    requires var s' := Apply(s, a);
      s'.thief.f.h0 <= i < LookedTo(s'.thief) && 0 <= i < |s'.cells| && s'.cells[i].Full?
    ensures i < |s.cells| && Apply(s, a).cells[i] == s.cells[i] && s.thief.f.h0 <= i
    ensures i < LookedTo(s.thief) || !Fits(s.cells[i].task, s.thief.f.iso) || LikelyMail(s, a, s.cells[i].task)
  {
    if ByThief(a) {
      WalkOn(s, a, i);
    } else {
      OwnersStep(s, a);
      BehindThief(s, a, i);
    }
  }

  lemma OwnersStep(s: State, a: Step)
    requires Shape(s) && Enabled(s, a) && Walking(s.thief) && !ByThief(a)
    ensures Apply(s, a).thief == s.thief && |Apply(s, a).cells| == |s.cells|
  {
  }

  lemma SameIsolation(s: State, a: Step)
    requires Enabled(s, a) && !s.thief.Away? && a != Unlock
    ensures !Apply(s, a).thief.Away? && Apply(s, a).thief.f.iso == s.thief.f.iso
    ensures Walking(Apply(s, a).thief) ==> Walking(s.thief)
  {
  }

  lemma ExcusedStill(run: seq<State>, steps: seq<Step>, m: nat, n: nat, t: Task, iso: nat)
    requires m < n < |steps| == |run| - 1
    requires Excused(run, steps, m, n, t, iso) || LikelyMail(run[n], steps[n], t)
    ensures Excused(run, steps, m, n + 1, t, iso)
  {
    if !Excused(run, steps, m, n, t, iso) {
      assert LikelyMail(run[n], steps[n], t);
    } else if Fits(t, iso) {
      var k :| m < k < n && LikelyMail(run[k], steps[k], t);
    }
  }

  /** The thief stays in the loop; what it has passed is still not for it. */
  lemma StillWalking(run: seq<State>, steps: seq<Step>, m: nat, n: nat, iso: nat)
    requires m < n < |steps| == |run| - 1 && LookedOver(run, steps, m, n, iso) && Shape(run[n])
    requires Takes(run[n], steps[n], run[n + 1]) && Walking(run[n + 1].thief) && run[n + 1].thief.f.iso == iso
    ensures LookedOver(run, steps, m, n + 1, iso)
  {
    var s, a, s' := run[n], steps[n], run[n + 1];
    forall i | s'.thief.f.h0 <= i < LookedTo(s'.thief) && 0 <= i < |s'.cells| && s'.cells[i].Full?
      ensures Excused(run, steps, m, n + 1, s'.cells[i].task, iso)
    {
      Passed(s, a, i);
      ExcusedStill(run, steps, m, n, s.cells[i].task, iso);
    }
  }

  lemma FirstLook(run: seq<State>, steps: seq<Step>, m: nat, iso: nat)
    requires m < |steps| == |run| - 1 && steps[m] == BeginSteal(iso) && Takes(run[m], steps[m], run[m + 1])
    ensures LookedOver(run, steps, m, m + 1, iso) && !run[m + 1].thief.Away?
  {
  }

  /** From the lock to the unlock. */
  lemma {:induction false} StealWalk(run: seq<State>, steps: seq<Step>, m: nat, n: nat, iso: nat)
    requires IsTrail(run, steps) && m < n < |run| && steps[m] == BeginSteal(iso)
    requires forall k :: m < k < n ==> steps[k] != Unlock
    ensures !run[n].thief.Away? && run[n].thief.f.iso == iso
    ensures Walking(run[n].thief) ==> LookedOver(run, steps, m, n, iso)
    decreases n
  {
    var l := n - 1;
    assert StepAt(run, steps, l);
    if m == l {
      FirstLook(run, steps, m, iso);
    } else {
      StealWalk(run, steps, m, l, iso);
      SameIsolation(run[l], steps[l]);
      TrailInv(run, steps, l);
      if Walking(run[n].thief) {
        StillWalking(run, steps, m, l, iso);
      }
    }
  }

  /** What the thief has after the loop. */
  function Hand(t: Thief): Option<Task> {
    match t
    case Restoring(_, task) => Some(task)
    case Unlocking(_, r) => r
    case _ => None
  }

  /** The thief leaves the loop at step k: past the tail with nothing, or with the task it is on. */
  predicate LeavesLoop(s: State, got: Option<Task>) {
    match got
    case None => s.thief.Probing? && s.thief.f.h > s.tail
    case Some(t) => s.thief.Taking? && s.thief.task == t
  }

  lemma LeavingStep(s: State, a: Step)
    requires Enabled(s, a) && !s.thief.Away? && a != Unlock && !Walking(Apply(s, a).thief)
    ensures if Walking(s.thief) then LeavesLoop(s, Hand(Apply(s, a).thief))
      else Hand(Apply(s, a).thief) == Hand(s.thief)
  {
  }

  lemma {:induction false} LeftLoop(run: seq<State>, steps: seq<Step>, m: nat, n: nat, iso: nat) returns (k: nat)
    requires IsTrail(run, steps) && m < n < |run| && steps[m] == BeginSteal(iso)
    requires (forall k :: m < k < n ==> steps[k] != Unlock) && !Walking(run[n].thief)
    ensures m < k < n && LookedOver(run, steps, m, k, iso) && LeavesLoop(run[k], Hand(run[n].thief))
    decreases n
  {
    var l := n - 1;
    assert StepAt(run, steps, l);
    assert m < l by {
      if m == l {
        FirstLook(run, steps, m, iso);
      }
    }
    StealWalk(run, steps, m, l, iso);
    LeavingStep(run[l], steps[l]);
    if Walking(run[l].thief) {
      k := l;
    } else {
      k := LeftLoop(run, steps, m, l, iso);
    }
  }

  /**
   steal_task returns the first task from the head that fits and is not a proxy likely to be taken from its mailbox; it
   returns none only if at some moment of the call no task between head and tail was for it.
   */
  lemma StealCall(run: seq<State>, steps: seq<Step>, m: nat, n: nat, iso: nat) returns (k: nat)
    requires IsTrail(run, steps) && m < n < |steps| && steps[m] == BeginSteal(iso) && steps[n] == Unlock
    requires forall k :: m < k < n ==> steps[k] != Unlock
    ensures m < k < n && run[n].thief.Unlocking? && 0 <= Lo(run[k])
    ensures run[n].thief.result.None? ==>
      run[n + 1].log == run[n].log && NoneFor(run, steps, m, k, iso, run[k].tail)
    ensures run[n].thief.result.Some? ==>
      && ReturnedTo(run[n], run[n + 1], run[n].thief.result.value, iso)
      && run[k].thief.Taking? && Read(run[k], run[k].thief.f.h - 1) == Full(run[n].thief.result.value)
      && NoneFor(run, steps, m, k, iso, run[k].thief.f.h - 1)
  {
    assert StepAt(run, steps, n);
    StealWalk(run, steps, m, n, iso);
    k := LeftLoop(run, steps, m, n, iso);
    TrailShape(run, steps, n);
    TrailShape(run, steps, k);
    LookedFrom(run, steps, m, k, iso);
  }

  lemma TrailShape(run: seq<State>, steps: seq<Step>, n: nat)
    requires IsTrail(run, steps) && n < |run|
    ensures Shape(run[n])
  {
    TrailInv(run, steps, n);
  }

  /** What the thief has looked over, from the restored head. */
  lemma LookedFrom(run: seq<State>, steps: seq<Step>, m: nat, k: nat, iso: nat)
    requires k < |run| == |steps| + 1 && LookedOver(run, steps, m, k, iso) && Shape(run[k])
    ensures 0 <= Lo(run[k]) && NoneFor(run, steps, m, k, iso, LookedTo(run[k].thief))
  {
  }

  /** No task from the restored head to below position hi is for the thief. */
  ghost predicate NoneFor(run: seq<State>, steps: seq<Step>, m: nat, k: nat, iso: nat, hi: int)
    requires k < |run| && |steps| == |run| - 1
  {
    forall i :: Lo(run[k]) <= i < hi && 0 <= i < |run[k].cells| && run[k].cells[i].Full? ==>
      Excused(run, steps, m, k, run[k].cells[i].task, iso)
  }
}
