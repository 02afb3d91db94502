/** What holds in every state of every run of the task pool. */
module TaskPoolRuns {
  import opened Wrappers
  import opened Relocation
  import opened TaskPool
  import opened TaskPoolProof

  ghost predicate Next(s: State, s': State) {
    exists a: Step :: Enabled(s, a) && Apply(s, a) == s'
  }

  /** A run interleaves the owner's calls of spawn and get_task with any number of thieves' calls of steal_task. */
  ghost predicate IsRun(run: seq<State>) {
    && run != []
    && Init(run[0])
    && forall i :: 0 <= i < |run| - 1 ==> NextAt(run, i)
  }

  ghost predicate NextAt(run: seq<State>, i: nat) { i + 1 < |run| && Next(run[i], run[i + 1]) }

  lemma StepKeeps(s: State, a: Step)
    requires Inv(s) && Enabled(s, a)
    ensures Inv(Apply(s, a))
  {
    match a
    case Spawn(t) => SpawnKeeps(s, t);
    case Store => StoreKeeps(s);
    case Commit => CommitKeeps(s);
    case Publish => OwnerFrame(s, a);
    case BeginGet(_) => OwnerFrame(s, a);
    case Lower => OwnerFrame(s, a);
    case Peek => OwnerFrame(s, a);
    case LockPool => LockPoolKeeps(s);
    case Examine => ExamineKeeps(s);
    case Consume(e) => ConsumeKeeps(s, e);
    case Leave => LeaveKeeps(s);
    case BeginSteal(_) => ThiefFrame(s, a);
    case Raise => ThiefFrame(s, a);
    case Probe => ThiefFrame(s, a);
    case Retreat => ThiefFrame(s, a);
    case Inspect(m) => InspectKeeps(s, m);
    case Take => TakeKeeps(s);
    case Restore => ThiefFrame(s, a);
    case Unlock => UnlockKeeps(s);
  }

  lemma {:induction false} RunKeeps(run: seq<State>, n: nat)
    requires IsRun(run) && n < |run|
    ensures Inv(run[n])
    decreases n
  {
    if n > 0 {
      RunKeeps(run, n - 1);
      assert NextAt(run, n - 1);
      var a :| Enabled(run[n - 1], a) && Apply(run[n - 1], a) == run[n];
      StepKeeps(run[n - 1], a);
    }
  }

  /** The histories are append-only. */
  lemma {:induction false} HistoryGrows(run: seq<State>, m: nat, n: nat)
    requires IsRun(run) && m <= n < |run|
    ensures run[m].log <= run[n].log && run[m].spawned <= run[n].spawned && run[m].freed <= run[n].freed
    decreases n - m
  {
    if m < n {
      assert NextAt(run, m);
      HistoryStep(run[m], run[m + 1]);
      HistoryGrows(run, m + 1, n);
    }
  }

  lemma HistoryStep(s: State, s': State)
    requires Next(s, s')
    ensures s.log <= s'.log && s.spawned <= s'.spawned && s.freed <= s'.freed
  {
  }

  /** Each spawned task is returned to at most one caller, and only to one whose isolation it suits. */
  lemma ReturnedAtMostOnce(run: seq<State>, n: nat)
    requires IsRun(run) && n < |run|
    ensures forall k, l :: 0 <= k < l < |run[n].log| ==> run[n].log[k].task != run[n].log[l].task
    ensures forall c :: c in run[n].log ==>
      c.task in run[n].spawned && (c.iso == NO_ISOLATION || c.iso == c.task.isolation)
  {
    RunKeeps(run, n);
  }

  /**
   A task not yet returned is in one hand, or in a non-null cell that restoring head and tail puts inside the bounds.
   */
  lemma NothingLost(run: seq<State>, n: nat, t: Task)
    requires IsRun(run) && n < |run| && t in run[n].spawned
    requires t !in run[n].freed && forall c :: c in run[n].log ==> c.task != t
    ensures var s := run[n];
            || t in OwnerHand(s) || t in ThiefHand(s)
            || exists i :: 0 <= Lo(s) <= i < Hi(s) <= |s.cells| && s.cells[i] == Full(t)
    ensures var s := run[n];
            s.owner.Idle? && s.thief.Away? ==>
              exists i :: 0 <= s.head <= i < s.tail <= |s.cells| && s.cells[i] == Full(t)
  {
    RunKeeps(run, n);
    var s := run[n];
    assert !Returned(ViewOf(s), t);
    if t !in OwnerHand(s) && t !in ThiefHand(s) {
      assert InPool(ViewOf(s), t);
    }
  }

  /** Lo and Hi are the head and tail that the rolling-back stores will write. */
  lemma BoundsRestored(run: seq<State>, n: nat)
    requires IsRun(run) && n < |run|
    ensures var s := run[n];
            && (Enabled(s, Leave) ==> Apply(s, Leave).tail == Hi(s))
            && (Enabled(s, Retreat) ==> Apply(s, Retreat).head == Lo(s))
            && (Enabled(s, Restore) ==> Apply(s, Restore).head == Lo(s))
            && (s.owner.Idle? ==> s.tail == Hi(s))
            && (s.thief.Away? && !AfterReset(s) ==> s.head == Lo(s))
  {
    RunKeeps(run, n);
  }

  /** When the owner gets the lock after a conflict, tail is its T and head is at most T+1. */
  lemma Arbitration(run: seq<State>, n: nat)
    requires IsRun(run) && n < |run| && Enabled(run[n], LockPool)
    ensures var s := run[n]; s.tail == s.owner.g.t && s.head <= s.owner.g.t + 1
  {
    RunKeeps(run, n);
  }

  /**
   Cells are accessed inside the pool, never poisoned when read, poisoned when spawn overwrites them, and never by both
   sides.
   */
  lemma CellAccess(run: seq<State>, n: nat)
    requires IsRun(run) && n < |run|
    ensures var s := run[n];
            && (s.owner.Examining? || s.owner.Consuming? ==>
                 0 <= s.owner.g.t < |s.cells| && s.cells[s.owner.g.t] != Poison)
            && (s.thief.Inspecting? || s.thief.Taking? ==>
                 0 <= s.thief.f.h - 1 < |s.cells| && s.cells[s.thief.f.h - 1] != Poison)
            && (s.owner.Storing? ==> 0 <= s.owner.at < |s.cells| && s.cells[s.owner.at] == Poison)
            && ((s.owner.Examining? || s.owner.Consuming?) && (s.thief.Inspecting? || s.thief.Taking?) ==>
                 s.thief.f.h - 1 != s.owner.g.t)
  {
    RunKeeps(run, n);
    var s, v := run[n], ViewOf(run[n]);
    if s.owner.Examining? || s.owner.Consuming? {
      assert Inside(v, s.owner.g.t);
    }
    if s.thief.Inspecting? || s.thief.Taking? {
      assert Inside(v, s.thief.f.h - 1);
    }
  }

  /**
   get_task gives up only when every task left in the pool has another isolation; without isolation, only when the pool
   is empty.
   */
  lemma GetTaskIsExhaustive(run: seq<State>, n: nat, i: int)
    requires IsRun(run) && n < |run| && run[n].owner.Leaving? && run[n].owner.g.result.None?
    requires Lo(run[n]) <= i < Hi(run[n])
    ensures 0 <= i < |run[n].cells|
    ensures run[n].cells[i].Full? ==>
      run[n].owner.g.iso != NO_ISOLATION && run[n].owner.g.iso != run[n].cells[i].task.isolation
  {
    RunKeeps(run, n);
  }

  /**
   An owner inside spawn or get_task can take its next step, except that it waits for the lock while a thief holds it.
   */
  lemma OwnerGoesOn(run: seq<State>, n: nat)
    requires IsRun(run) && n < |run| && !run[n].owner.Idle?
    ensures Enabled(run[n], OwnerStep(run[n].owner)) <==> (run[n].owner.Locking? ==> run[n].thief.Away?)
  {
    RunKeeps(run, n);
  }

  /** A thief inside steal_task can always take its next step, and each step brings it closer to the unlock. */
  lemma ThiefGoesOn(run: seq<State>, n: nat)
    requires IsRun(run) && n < |run| && !run[n].thief.Away?
    ensures Enabled(run[n], ThiefStep(run[n].thief))
    ensures forall a :: ByThief(a) && Enabled(run[n], a) ==> 0 <= ThiefLeft(Apply(run[n], a)) < ThiefLeft(run[n])
  {
    RunKeeps(run, n);
    forall a | ByThief(a) && Enabled(run[n], a)
      ensures 0 <= ThiefLeft(Apply(run[n], a)) < ThiefLeft(run[n])
    {
      ThiefLowers(run[n], a);
    }
  }

  lemma ThiefLowers(s: State, a: Step)
    requires ThiefShape(s) && ByThief(a) && Enabled(s, a)
    ensures 0 <= ThiefLeft(Apply(s, a)) < ThiefLeft(s)
  {
  }

  predicate ByThief(a: Step) {
    a.Raise? || a.Probe? || a.Retreat? || a.Inspect? || a.Take? || a.Restore? || a.Unlock?
  }

  /** Bounds the steps a thief takes while tail stands still, as it does while the owner waits for the lock. */
  function ThiefLeft(s: State): int {
    match s.thief
    case Away => 0
    case Unlocking(_, _) => 1
    case Retreating(_) => 2
    case Restoring(_, _) => 2
    case Taking(_, _) => 3
    case Raising(f) => 4 * (s.tail + 1 - f.h) + 6
    case Probing(f) => 4 * (s.tail + 1 - f.h) + 9
    case Inspecting(f) => 4 * (s.tail + 1 - f.h) + 8
  }

  /** The next step of a thief that holds the lock. */
  function ThiefStep(t: Thief): Step {
    match t
    case Away => Raise
    case Raising(_) => Raise
    case Probing(_) => Probe
    case Retreating(_) => Retreat
    case Inspecting(_) => Inspect(false)
    case Taking(_, _) => Take
    case Restoring(_, _) => Restore
    case Unlocking(_, _) => Unlock
  }

  /** The next step of an owner that is not idle. */
  function OwnerStep(o: Owner): Step {
    match o
    case Idle => Publish
    case Storing(_, _) => Store
    case Committing(_, _) => Commit
    case Publishing => Publish
    case Lowering(_) => Lower
    case Peeking(_) => Peek
    case Locking(_) => LockPool
    case Examining(_) => Examine
    case Consuming(_) => Consume(false)
    case Leaving(_) => Leave
  }
}
