/**
 The two-sided claim of a task proxy (task_proxy::extract_task in src/tbb/mailbox.h) and its callers: the pool copy is
 extracted by arena_slot::get_task (src/tbb/arena_slot.cpp) or by arena::steal_task (src/tbb/arena.h), the mailbox copy
 by task_dispatcher::get_mailbox_task (src/tbb/task_dispatcher.h). Every step is one access to the proxy.
 */
module TaskProxy {
  import opened Wrappers

  // A task pointer is a positive multiple of 4, so that the two low-order bits of task_and_tag are free.
  const POOL_BIT := 1
  const MAILBOX_BIT := 2
  const LOCATION_MASK := 3

  datatype Side = Pool | Mail

  /** Who extracts the pool copy. */
  datatype Path = GetTask | StealTask

  datatype Phase =
    | Inspect               // about to see that the task is a proxy
    | EarlySlot             // about to read the slot field, before extracting
    | Load                  // about to load task_and_tag
    | Cas(tat: nat)         // about to try tat -> cleaner_bit
    | LateSlot(task: nat)   // extracted the task, about to read the slot field
    | Free                  // found the proxy empty, about to delete it
    | Done(got: Option<nat>)

  datatype State = State(
    path: Path,
    task: nat,              // the task the proxy was made for
    tat: nat,               // task_and_tag
    pool: Phase,
    mail: Phase,
    freed: nat,             // history: how often the proxy was deleted
    late: bool)             // history: it was accessed after that

  function FromBit(side: Side): nat { if side == Pool then POOL_BIT else MAILBOX_BIT }

  predicate IsShared(tat: nat) { tat % 4 == LOCATION_MASK }

  function TaskPtr(tat: nat): nat { tat - tat % 4 }

  predicate Init(s: State) {
    && s.task > 0 && s.task % 4 == 0 && s.tat == s.task + LOCATION_MASK
    && s.pool == Inspect && s.mail == Load && s.freed == 0 && !s.late
  }

  function PhaseOf(s: State, side: Side): Phase { if side == Pool then s.pool else s.mail }

  function SetPhase(s: State, side: Side, p: Phase): State { if side == Pool then s.(pool := p) else s.(mail := p) }

  predicate Enabled(s: State, side: Side) { !PhaseOf(s, side).Done? }

  function Apply(s: State, side: Side): State
    requires Enabled(s, side)
  {
    var s1 := s.(late := s.late || s.freed > 0);
    match PhaseOf(s, side)
    case Inspect => SetPhase(s1, side, if s.path == StealTask then EarlySlot else Load)
    case EarlySlot => SetPhase(s1, side, Load)
    case Load => SetPhase(s1, side, if s.tat == FromBit(side) then Free else Cas(s.tat))
    case Cas(tat) =>
      if s.tat == tat then
        SetPhase(s1.(tat := LOCATION_MASK - FromBit(side)), side,
          if side == Pool && s.path == GetTask then LateSlot(TaskPtr(tat)) else Done(Some(TaskPtr(tat))))
      else SetPhase(s1, side, Free)
    case LateSlot(task) => SetPhase(s1, side, Done(Some(task)))
    case Free => SetPhase(s1.(freed := s.freed + 1), side, Done(None))
  }

  // ---------------------------------------------------------------- invariant

  /** Where a side may be while nobody has taken the task. */
  predicate Trying(p: Phase, tat: nat) { p == Inspect || p == EarlySlot || p == Load || p == Cas(tat) }

  predicate Won(p: Phase, task: nat) { p == LateSlot(task) || p == Done(Some(task)) }

  predicate Lost(p: Phase) { p == Free || p == Done(None) }

  /** Side w has taken the task and left the other side to free the proxy. */
  predicate Taken(s: State, w: Side) {
    var loser := if w == Pool then Mail else Pool;
    && s.tat == FromBit(loser) && Won(PhaseOf(s, w), s.task)
    && (Trying(PhaseOf(s, loser), s.task + LOCATION_MASK) || Lost(PhaseOf(s, loser)))
    && s.freed == (if PhaseOf(s, loser) == Done(None) then 1 else 0)
  }

  predicate Inv(s: State) {
    && s.task > 0 && s.task % 4 == 0
    && (|| (s.tat == s.task + LOCATION_MASK && Trying(s.pool, s.tat) && Trying(s.mail, s.tat) && s.freed == 0)
        || Taken(s, Pool)
        || Taken(s, Mail))
    && (s.pool.LateSlot? ==> s.path == GetTask) && !s.mail.LateSlot?
  }

  lemma StepKeeps(s: State, side: Side)
    requires Inv(s) && Enabled(s, side)
    ensures Inv(Apply(s, side))
  {
    assert TaskPtr(s.task + LOCATION_MASK) == s.task;
    assert s.task + LOCATION_MASK > 3;
  }

  // ---------------------------------------------------------------- runs

  ghost predicate Next(s: State, s': State) {
    exists side: Side :: Enabled(s, side) && Apply(s, side) == s'
  }

  ghost predicate IsRun(run: seq<State>) {
    && run != []
    && Init(run[0])
    && forall i :: 0 <= i < |run| - 1 ==> NextAt(run, i)
  }

  ghost predicate NextAt(run: seq<State>, i: nat) { i + 1 < |run| && Next(run[i], run[i + 1]) }

  lemma NextKeeps(s: State, s': State)
    requires Inv(s) && Next(s, s')
    ensures Inv(s') && s'.task == s.task && s'.path == s.path
  {
    var side :| Enabled(s, side) && Apply(s, side) == s';
    StepKeeps(s, side);
  }

  lemma {:induction false} RunInv(run: seq<State>, n: nat)
    requires IsRun(run) && n < |run|
    ensures Inv(run[n]) && run[n].task == run[0].task && run[n].path == run[0].path
    decreases n
  {
    if n > 0 {
      RunInv(run, n - 1);
      assert NextAt(run, n - 1);
      NextKeeps(run[n - 1], run[n]);
    }
  }

  /** What extract_task asserts of the tag it loads, and of the tag it leaves behind when it returns null. */
  lemma TagsAsAsserted(run: seq<State>, n: nat, side: Side)
    requires IsRun(run) && n < |run|
    ensures var s, p := run[n], PhaseOf(run[n], side);
      && (p == Load ==> s.tat == FromBit(side) || (IsShared(s.tat) && TaskPtr(s.tat) != 0))
      && (p == Free ==> s.tat == FromBit(side))
  {
    RunInv(run, n);
  }

  /** At most one side gets the task, and only the other one frees the proxy, at most once. */
  lemma AtMostOneWinner(run: seq<State>, n: nat, side: Side)
    requires IsRun(run) && n < |run|
    ensures var s, other := run[n], if side == Pool then Mail else Pool;
      && s.freed <= 1
      && (Won(PhaseOf(s, side), s.task) ==> !PhaseOf(s, other).LateSlot? && PhaseOf(s, other) != Done(Some(s.task)))
      && (s.freed == 1 ==> (PhaseOf(s, side) == Done(None) <==> Won(PhaseOf(s, other), s.task)))
  {
    RunInv(run, n);
  }

  /** When both sides are done, exactly one has the task and the other has freed the proxy, exactly once. */
  lemma ExactlyOne(run: seq<State>, n: nat)
    requires IsRun(run) && n < |run| && run[n].pool.Done? && run[n].mail.Done?
    ensures var s := run[n];
      && s.freed == 1
      && ((s.pool == Done(Some(run[0].task)) && s.mail == Done(None))
        || (s.mail == Done(Some(run[0].task)) && s.pool == Done(None)))
  {
    RunInv(run, n);
  }

  // ---------------------------------------------------------------- the winner's last access

  /** A step touches a deleted proxy exactly when get_task reads the slot field after the mailbox side has freed it. */
  lemma LateAccess(run: seq<State>, n: nat, side: Side)
    requires IsRun(run) && n < |run| && Enabled(run[n], side)
    ensures run[n].freed > 0 <==> side == Pool && run[n].pool.LateSlot? && run[n].mail == Done(None)
  {
    RunInv(run, n);
    LateStep(run[n], side);
  }

  lemma LateStep(s: State, side: Side)
    requires Inv(s) && Enabled(s, side)
    ensures s.freed > 0 <==> side == Pool && s.pool.LateSlot? && s.mail == Done(None)
  {
  }

  lemma NotLateNext(s: State, s': State)
    requires Inv(s) && Next(s, s') && s.path == StealTask && !s.late
    ensures !s'.late
  {
    var side :| Enabled(s, side) && Apply(s, side) == s';
    LateStep(s, side);
  }

  lemma {:induction false} StealNeverLate(run: seq<State>, n: nat)
    requires IsRun(run) && n < |run| && run[0].path == StealTask
    ensures !run[n].late
    decreases n
  {
    if n > 0 {
      StealNeverLate(run, n - 1);
      RunInv(run, n - 1);
      assert NextAt(run, n - 1);
      NotLateNext(run[n - 1], run[n]);
    }
  }

  /**
   The pool side takes the task, the mailbox side finds the proxy empty and deletes it, and get_task reads its slot.
   */
  lemma GetTaskLate(task: nat) returns (run: seq<State>)
    requires task > 0 && task % 4 == 0
    ensures IsRun(run) && run[0].path == GetTask && run[0].task == task && run[|run| - 1].late
  {
    var s0 := State(GetTask, task, task + LOCATION_MASK, Inspect, Load, 0, false);
    var s1 := Apply(s0, Pool);
    var s2 := Apply(s1, Pool);
    var s3 := Apply(s2, Pool);
    var s4 := Apply(s3, Mail);
    var s5 := Apply(s4, Mail);
    var s6 := Apply(s5, Pool);
    run := [s0, s1, s2, s3, s4, s5, s6];
    assert Next(s0, s1) && Next(s1, s2) && Next(s2, s3) && Next(s3, s4) && Next(s4, s5) && Next(s5, s6);
  }

  /** Every run of that path touches the proxy only before it is deleted. */
  ghost predicate FreedAfterLastAccess(path: Path) {
    forall run: seq<State>, n: nat :: IsRun(run) && n < |run| && run[0].path == path ==> !run[n].late
  }

  /** The proxy is freed after the winner's last access exactly on the path that reads the slot field first. */
  lemma FreedLastIffSlotReadFirst(path: Path)
    ensures FreedAfterLastAccess(path) <==> path == StealTask
  {
    if path == StealTask {
      forall run: seq<State>, n: nat | IsRun(run) && n < |run| && run[0].path == path
        ensures !run[n].late
      {
        StealNeverLate(run, n);
      }
    } else {
      var run := GetTaskLate(4);
      assert run[|run| - 1].late;
    }
  }

  // ---------------------------------------------------------------- both sides end

  function PhaseLeft(p: Phase): nat {
    match p
    case Inspect => 5
    case EarlySlot => 4
    case Load => 3
    case Cas(_) => 2
    case LateSlot(_) => 1
    case Free => 1
    case Done(_) => 0
  }

  /** Both sides are done after at most eight steps. */
  lemma {:induction false} BothEnd(run: seq<State>, n: nat)
    requires IsRun(run) && n < |run|
    ensures n + PhaseLeft(run[n].pool) + PhaseLeft(run[n].mail) <= 8
    decreases n
  {
    if n > 0 {
      BothEnd(run, n - 1);
      assert NextAt(run, n - 1);
    }
  }
}
