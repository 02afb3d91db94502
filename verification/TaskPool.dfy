/**
 The work-stealing task pool of one arena slot (src/tbb/arena_slot.h, src/tbb/arena_slot.cpp):
 one owner that spawns and gets tasks at the tail, and any number of thieves that steal at the head.

 A step is one atomic access to shared memory, or one region the owner runs while it holds the pool
 lock. Thieves that do not hold the lock have no state of their own: a thief's compare-exchange on
 `task_pool` either fails, changing nothing, or makes it the one thief described by `thief`.
 */
module TaskPool {
  import opened Wrappers
  import opened Relocation

  datatype Claim = Claim(task: Task, iso: nat)

  /** The `task_pool` word: EmptyTaskPool, a pointer to the pool, or LockedTaskPool set by a thief. */
  datatype Word = Empty | Open | Locked

  /** Local variables of get_task. */
  datatype Get = Get(iso: nat, t0: int, t: int, skipped: bool, checked: bool, result: Option<Task>)

  datatype Owner =
    | Idle
    | Storing(task: Task, at: int)     // spawn: about to store the task pointer
    | Committing(task: Task, at: int)  // spawn: about to raise tail
    | Publishing                       // spawn: about to publish the pool if it is not
    | Lowering(g: Get)                 // get_task: about to run `T = --tail`
    | Peeking(g: Get)                  // get_task: about to compare head with T
    | Locking(g: Get)                  // get_task: conflict seen, waiting for the lock
    | Examining(g: Get)                // get_task: about to read the cell at T
    | Consuming(g: Get)                // get_task: isolation matches, about to clear the cell at T
    | Leaving(g: Get)                  // get_task: about to restore tail and return g.result

  /** Local variables of steal_task. */
  datatype Steal = Steal(iso: nat, h: int, h0: int, skipped: bool)

  datatype Thief =
    | Away                                         // no thief holds the lock
    | Raising(f: Steal)                            // about to run `H = ++head`
    | Probing(f: Steal)                            // about to compare H with tail
    | Retreating(f: Steal)                         // about to roll head back, nothing stolen
    | Inspecting(f: Steal)                         // about to read the cell at H-1
    | Taking(f: Steal, task: Task)                 // about to clear the cell at H-1
    | Restoring(f: Steal, task: Task)              // about to roll head back, holding a task
    | Unlocking(f: Steal, result: Option<Task>)    // about to unlock and return

  datatype State = State(
    cells: seq<Cell>,      // task_pool_ptr; its length is my_task_pool_size
    head: int,
    tail: int,
    pool: Word,
    owner: Owner,
    thief: Thief,
    spawned: set<Task>,    // every task whose spawn reached its commit
    log: seq<Claim>,       // tasks returned by get_task and steal_task, with the isolation asked for
    freed: set<Task>)      // empty proxies the owner released

  datatype Step =
    | Spawn(task: Task) | Store | Commit | Publish
    | BeginGet(iso: nat) | Lower | Peek | LockPool | Examine | Consume(emptyProxy: bool) | Leave
    | BeginSteal(iso: nat) | Raise | Probe | Retreat | Inspect(mailLikely: bool) | Take | Restore | Unlock

  predicate Suits(t: Task, iso: nat) { iso == NO_ISOLATION || iso == t.isolation }

  function Read(s: State, i: int): Cell {
    if 0 <= i < |s.cells| then s.cells[i] else Poison
  }

  function Write(cells: seq<Cell>, i: int, c: Cell): seq<Cell> {
    if 0 <= i < |cells| then cells[i := c] else cells
  }

  // ---------------------------------------------------------------- steps

  predicate Init(s: State) {
    s == State([], 0, 0, Empty, Idle, Away, {}, [], {})
  }

  predicate Enabled(s: State, a: Step) {
    match a
    case Spawn(t) => s.owner.Idle? && t !in s.spawned && (RoomForOne(s) || s.pool != Locked)
    case Store => s.owner.Storing?
    case Commit => s.owner.Committing?
    case Publish => s.owner.Publishing?
    case BeginGet(_) => s.owner.Idle? && s.pool != Empty
    case Lower => s.owner.Lowering?
    case Peek => s.owner.Peeking?
    case LockPool => s.owner.Locking? && s.pool == Open
    case Examine => s.owner.Examining?
    case Consume(empty) => s.owner.Consuming? && s.owner.g.result.Some? && (empty ==> s.owner.g.result.value.proxy)
    case Leave => s.owner.Leaving?
    case BeginSteal(_) => s.thief.Away? && s.pool == Open
    case Raise => s.thief.Raising?
    case Probe => s.thief.Probing?
    case Retreat => s.thief.Retreating?
    case Inspect(_) => s.thief.Inspecting?
    case Take => s.thief.Taking?
    case Restore => s.thief.Restoring?
    case Unlock => s.thief.Unlocking?
  }

  predicate RoomForOne(s: State) { s.tail + 1 <= |s.cells| }

  function Apply(s: State, a: Step): State
    requires Enabled(s, a)
  {
    match a
    case Spawn(t) => ApplySpawn(s, t)
    case Store =>
      s.(cells := Write(s.cells, s.owner.at, Full(s.owner.task)), owner := Committing(s.owner.task, s.owner.at))
    case Commit => s.(tail := s.owner.at + 1, owner := Publishing, spawned := s.spawned + {s.owner.task})
    case Publish => s.(pool := if s.pool == Empty then Open else s.pool, owner := Idle)
    case BeginGet(iso) => s.(owner := Lowering(Get(iso, s.tail, s.tail, false, false, None)))
    case Lower => s.(tail := s.tail - 1, owner := Peeking(s.owner.g.(t := s.tail - 1)))
    case Peek => s.(owner := if s.head > s.owner.g.t then Locking(s.owner.g) else Examining(s.owner.g))
    case LockPool => ApplyLockPool(s)
    case Examine => ApplyExamine(s)
    case Consume(empty) => ApplyConsume(s, empty)
    case Leave => ApplyLeave(s)
    case BeginSteal(iso) => s.(pool := Locked, thief := Raising(Steal(iso, s.head, s.head, false)))
    case Raise => s.(head := s.head + 1, thief := Probing(s.thief.f.(h := s.head + 1)))
    case Probe => s.(thief := if s.thief.f.h > s.tail then Retreating(s.thief.f) else Inspecting(s.thief.f))
    case Retreat => s.(head := s.thief.f.h0, thief := Unlocking(s.thief.f, None))
    case Inspect(mailLikely) => ApplyInspect(s, mailLikely)
    case Take => ApplyTake(s)
    case Restore => s.(head := s.thief.f.h0, thief := Unlocking(s.thief.f, Some(s.thief.task)))
    case Unlock =>
      s.(pool := Open, thief := Away,
         log := if s.thief.result.Some? then s.log + [Claim(s.thief.result.value, s.thief.f.iso)] else s.log)
  }

  /** spawn up to the call of prepare_task_pool, whose relocation runs under the lock. */
  function ApplySpawn(s: State, t: Task): State
  {
    if RoomForOne(s) then
      s.(owner := Storing(t, s.tail))
    else if |s.cells| == 0 then
      s.(cells := Fresh(AllocatedSize(FirstSize(1))), owner := Storing(t, 0))
    else
      var r := Relocated(s.cells, s.head, s.tail, 1);
      s.(cells := r.cells, head := 0, tail := r.tail, owner := Storing(t, r.tail))
  }

  /** The region of get_task between acquire_task_pool and release_task_pool or reset_task_pool_and_leave. */
  function ApplyLockPool(s: State): State
    requires s.owner.Locking?
  {
    var g := s.owner.g;
    if s.head > g.t then
      var g' := g.(checked := true, result := None);
      if g.skipped then s.(owner := Leaving(g'))
      else s.(head := 0, tail := 0, pool := Empty, owner := Leaving(g'))
    else if s.head == g.t then
      var c := Read(s, g.t);
      var suits := c.Full? && Suits(c.task, g.iso);
      var g' := g.(checked := true,
                   result := if suits then Some(c.task) else None,
                   skipped := g.skipped || (c.Full? && !suits));
      if g'.skipped then s.(owner := Examining(g'))
      else s.(head := 0, tail := 0, pool := Empty, owner := Examining(g'))
    else
      s.(owner := Examining(g))
  }

  function ApplyExamine(s: State): State
    requires s.owner.Examining?
  {
    var g := s.owner.g;
    var c := Read(s, g.t);
    if !c.Full? then
      NextRound(s, g)
    else if g.checked then
      if g.result.Some? then s.(owner := Consuming(g)) else NextRound(s, g)
    else if Suits(c.task, g.iso) then
      s.(owner := Consuming(g.(result := Some(c.task))))
    else
      NextRound(s, g.(skipped := true))
  }

  /** The cell becomes a hole or poison; an empty proxy is released and the search goes on. */
  function ApplyConsume(s: State, emptyProxy: bool): State
    requires s.owner.Consuming? && s.owner.g.result.Some?
  {
    var g := s.owner.g;
    var s' := s.(cells := Write(s.cells, g.t, if g.skipped then Hole else Poison));
    if emptyProxy then
      NextRound(s'.(freed := s.freed + {g.result.value}), g.(result := None))
    else
      s'.(owner := Leaving(g))
  }

  /** The end of the do-while body when no task was taken. */
  function NextRound(s: State, g: Get): State
  {
    var g' := if g.skipped then g else g.(t0 := g.t);
    var s' := if g.skipped then s else s.(cells := Write(s.cells, g.t, Poison));
    if g.checked then s'.(owner := Leaving(g'.(result := None))) else s'.(owner := Lowering(g'))
  }

  function ApplyLeave(s: State): State
    requires s.owner.Leaving?
  {
    var g := s.owner.g;
    s.(tail := if g.skipped then g.t0 else s.tail,
       owner := Idle,
       log := if g.result.Some? then s.log + [Claim(g.result.value, g.iso)] else s.log)
  }

  function ApplyInspect(s: State, mailLikely: bool): State
    requires s.thief.Inspecting?
  {
    var f := s.thief.f;
    var c := Read(s, f.h - 1);
    if c.Full? then
      if Suits(c.task, f.iso) && !(c.task.proxy && mailLikely) then s.(thief := Taking(f, c.task))
      else s.(thief := Raising(f.(skipped := true)))
    else if !f.skipped then
      s.(cells := Write(s.cells, f.h0, Poison), thief := Raising(f.(h0 := f.h)))
    else
      s.(thief := Raising(f))
  }

  function ApplyTake(s: State): State
    requires s.thief.Taking?
  {
    var f := s.thief.f;
    if f.skipped then
      s.(cells := Write(s.cells, f.h - 1, Hole), thief := Restoring(f, s.thief.task))
    else
      s.(cells := Write(s.cells, f.h - 1, Poison), thief := Unlocking(f, Some(s.thief.task)))
  }

  // ---------------------------------------------------------------- bounds after restoring head and tail

  predicate Searching(o: Owner) {
    o.Lowering? || o.Peeking? || o.Locking? || o.Examining? || o.Consuming?
  }

  /** The owner has reset the pool and still has the last cell to look at. */
  predicate AfterReset(s: State) {
    (s.owner.Examining? || s.owner.Consuming?) && s.pool == Empty
  }

  /** Where head is or will be once the thief, if any, has rolled it back. */
  function Lo(s: State): int {
    if AfterReset(s) then s.owner.g.t
    else if s.thief.Away? || s.thief.Unlocking? then s.head
    else s.thief.f.h0
  }

  /** Where tail is or will be once the owner has put skipped tasks back inside the bounds. */
  function Hi(s: State): int {
    if Searching(s.owner) then s.owner.g.t0
    else if s.owner.Leaving? && s.owner.g.skipped then s.owner.g.t0
    else s.tail
  }

  function OwnerHand(s: State): set<Task> {
    if s.owner.Leaving? && s.owner.g.result.Some? then {s.owner.g.result.value} else {}
  }

  function ThiefHand(s: State): set<Task> {
    if s.thief.Restoring? then {s.thief.task}
    else if s.thief.Unlocking? && s.thief.result.Some? then {s.thief.result.value}
    else {}
  }

  // ---------------------------------------------------------------- invariant

  /** Index arithmetic of the owner/thief arbitration. */
  predicate Shape(s: State) {
    && 0 <= Lo(s) <= Hi(s) <= |s.cells|
    && (s.pool == Locked <==> !s.thief.Away?)
    && OwnerShape(s)
    && ThiefShape(s)
  }

  predicate OwnerShape(s: State) {
    match s.owner
    case Idle => s.pool == Empty ==> s.tail == 0
    case Storing(t, at) => at == s.tail && 0 <= at < |s.cells| && t !in s.spawned
    case Committing(t, at) => at == s.tail && 0 <= at < |s.cells| && t !in s.spawned && s.cells[at] == Full(t)
    case Publishing => true
    case Lowering(g) => s.pool != Empty && s.tail == g.t && Lo(s) <= g.t && GetShape(g, g.t) && !g.checked
    case Peeking(g) => s.pool != Empty && s.tail == g.t && Lo(s) <= g.t + 1 && GetShape(g, g.t + 1) && !g.checked
    case Locking(g) => s.pool != Empty && s.tail == g.t && Lo(s) <= g.t + 1 && GetShape(g, g.t + 1) && !g.checked
    case Examining(g) => AtCell(s, g) && GetShape(g, g.t + 1) && CheckedShape(s, g)
    case Consuming(g) => AtCell(s, g) && GetShape(g, g.t + 1) && g.result.Some? && s.cells[g.t] == Full(g.result.value)
                         && (g.checked ==> g.t <= Lo(s)) && Suits(g.result.value, g.iso)
    case Leaving(g) =>
      && (s.pool == Empty ==> s.head == 0 && s.tail == 0 && !g.skipped)
      && (g.skipped ==> s.tail == g.t && g.t + 1 <= g.t0 && Lo(s) <= g.t + 1)
      && (g.result.Some? ==> Suits(g.result.value, g.iso))
      && (g.result.None? ==> g.skipped || s.pool == Empty)
      && (g.result.None? && g.skipped ==> g.t <= Lo(s))
  }

  predicate GetShape(g: Get, low: int) {
    low <= g.t0 && (!g.skipped ==> g.t0 == low)
  }

  predicate AtCell(s: State, g: Get) {
    && 0 <= g.t < |s.cells|
    && Lo(s) <= g.t
    && (s.pool == Empty ==> s.head == 0 && s.tail == 0 && g.checked && !g.skipped)
    && (s.pool != Empty ==> s.tail == g.t && (g.checked ==> g.skipped))
  }

  predicate CheckedShape(s: State, g: Get) {
    && (g.checked ==> g.t <= Lo(s))
    && (g.checked && g.result.Some? ==> Read(s, g.t) == Full(g.result.value) && Suits(g.result.value, g.iso))
    && (g.checked && g.result.None? && Read(s, g.t).Full? ==> g.skipped && !Suits(Read(s, g.t).task, g.iso))
    && (!g.checked ==> s.pool != Empty)
  }

  /** The owner has lowered tail but has not yet learnt whether a thief is ahead of it. */
  predicate Undecided(o: Owner) { o.Peeking? || o.Locking? }

  /** How far past tail a thief may have raised head. */
  function Slack(s: State): int {
    if Undecided(s.owner) || (s.owner.Leaving? && s.owner.g.skipped) then 1 else 0
  }

  predicate ThiefShape(s: State) {
    match s.thief
    case Away => s.pool == Empty ==> s.head == 0
    case Raising(f) => StealShape(s, f, f.h) && f.h <= s.tail + Slack(s)
    case Probing(f) => StealShape(s, f, f.h - 1) && f.h <= s.tail + Slack(s) + 1
    case Retreating(f) => StealShape(s, f, f.h - 1)
    case Inspecting(f) => StealShape(s, f, f.h - 1) && InReach(s, f)
    case Taking(f, t) => StealShape(s, f, f.h - 1) && InReach(s, f) && Read(s, f.h - 1) == Full(t) && Suits(t, f.iso)
    case Restoring(f, t) => StealShape(s, f, f.h - 1) && f.skipped && Suits(t, f.iso)
    case Unlocking(f, r) => r.Some? ==> Suits(r.value, f.iso)
  }

  predicate StealShape(s: State, f: Steal, low: int) {
    && s.head == f.h
    && f.h0 <= low
    && (!f.skipped ==> f.h0 == low)
  }

  /** The cell the thief is on lies inside the bounds and is not the owner's. */
  predicate InReach(s: State, f: Steal) {
    && f.h <= Hi(s)
    && (f.h <= s.tail || (Undecided(s.owner) && f.h == s.tail + 1))
  }

  /** The pool as it will be once head and tail are restored, and where every other task is. */
  datatype View = View(
    cells: seq<Cell>,
    lo: int,
    hi: int,
    pending: int,        // index of a task stored but not yet committed, or -1
    spawned: set<Task>,
    log: seq<Claim>,
    freed: set<Task>,
    owner: set<Task>,    // taken by the owner, not yet returned
    thief: set<Task>)    // taken by the thief, not yet returned

  function ViewOf(s: State): View {
    View(s.cells, Lo(s), Hi(s), if s.owner.Committing? then s.owner.at else -1,
         s.spawned, s.log, s.freed, OwnerHand(s), ThiefHand(s))
  }

  predicate Inside(v: View, i: int) { v.lo <= i < v.hi }

  ghost predicate InPool(v: View, t: Task) {
    exists i :: Inside(v, i) && 0 <= i < |v.cells| && v.cells[i] == Full(t)
  }

  ghost predicate Returned(v: View, t: Task) {
    exists k :: 0 <= k < |v.log| && v.log[k].task == t
  }

  ghost predicate Gone(v: View, t: Task) {
    t in v.freed || t in v.owner || t in v.thief || Returned(v, t)
  }

  /** Cells are non-poisoned exactly inside the bounds. */
  ghost predicate Content(v: View) {
    forall i :: 0 <= i < |v.cells| ==> ((Inside(v, i) || i == v.pending) <==> v.cells[i] != Poison)
  }

  /** Every task is in one place only. */
  ghost predicate Unique(v: View) {
    && (forall i, j :: 0 <= i < j < |v.cells| && v.cells[i].Full? && v.cells[j].Full? ==> v.cells[i] != v.cells[j])
    && (forall i :: Inside(v, i) && 0 <= i < |v.cells| && v.cells[i].Full? ==>
         v.cells[i].task in v.spawned && !Gone(v, v.cells[i].task))
    && v.freed + v.owner + v.thief <= v.spawned
    && v.owner !! v.thief && v.freed !! (v.owner + v.thief)
    && (forall k :: 0 <= k < |v.log| ==>
         v.log[k].task in v.spawned && v.log[k].task !in v.freed + v.owner + v.thief
           && Suits(v.log[k].task, v.log[k].iso))
    && (forall k, l :: 0 <= k < l < |v.log| ==> v.log[k].task != v.log[l].task)
  }

  /** No spawned task has vanished. */
  ghost predicate Kept(v: View) {
    forall t :: t in v.spawned ==> Gone(v, t) || InPool(v, t)
  }

  ghost predicate Sound(v: View) { Content(v) && Unique(v) && Kept(v) }

  /** What get_task has already looked at and passed over. */
  ghost predicate Examined(s: State) {
    match s.owner
    case Lowering(g) => PassedOver(s, g, g.t)
    case Peeking(g) => PassedOver(s, g, g.t + 1)
    case Locking(g) => PassedOver(s, g, g.t + 1)
    case Examining(g) => PassedOver(s, g, g.t + 1)
    case Consuming(g) => PassedOver(s, g, g.t + 1)
    case Leaving(g) => g.result.None? && g.skipped ==> PassedOver(s, g, Lo(s))
    case _ => true
  }

  ghost predicate PassedOver(s: State, g: Get, low: int) {
    forall i :: low <= i < g.t0 && 0 <= i < |s.cells| && s.cells[i].Full? ==> !Suits(s.cells[i].task, g.iso)
  }

  ghost predicate Inv(s: State) {
    Shape(s) && Sound(ViewOf(s)) && Examined(s)
  }
}
