/**
 The concurrent monitor (concurrent_monitor_base in src/tbb/concurrent_monitor.h): two-phase waiting with an epoch, and
 the family of notifications. Each waiter owns one sleep_node with a binary semaphore. A step is one access to shared
 memory, or a region under my_mutex. The condition a waiter checks is arbitrary: a check may come out either way, and
 what counts is whether it came before or after a notifier changed the shared state.
 */
module Monitor {
  import opened Wrappers
  import opened Sequences

  datatype Phase =
    | Idle                     // outside wait
    | Pumping                  // about to consume the wake-up it skipped
    | Announcing               // about to set my_is_in_list
    | Adding                   // about to lock, take the epoch and join the waitset
    | Checking                 // about to evaluate its condition
    | Committing               // saw the condition false, about to compare epochs
    | Sleeping                 // about to wait on its semaphore
    | Cancelling(again: bool)  // set my_skipped_wakeup, about to load my_is_in_list
    | Removing(again: bool)    // about to lock and leave the waitset
    | Dead                     // its node is destroyed

  datatype Node = Node(
    context: nat,              // my_context
    epoch: nat,                // my_epoch
    inList: bool,              // my_is_in_list
    skipped: bool,             // my_skipped_wakeup
    sema: nat,                 // the semaphore
    phase: Phase,
    blind: set<nat>,           // history: notifiers that had not changed the state when it last saw its condition false
    holder: Option<nat>,       // history: the notifier that took it off the waitset and has not signalled it yet
    signals: nat,              // history: signals given
    waits: nat)                // history: signals consumed

  /** notify_all and abort_all, notify(predicate), notify_one, notify_one_relaxed(predicate). */
  datatype Kind = All | Each | One | Last

  datatype Stage =
    | Ready                    // has not changed the shared state yet
    | Looking                  // changed it; about to see whether the waitset is empty
    | Locking                  // about to lock
    | Signalling(temp: seq<nat>)
    | Finished

  datatype Notifier = Notifier(kind: Kind, contexts: set<nat>, stage: Stage)

  datatype State = State(epoch: nat, waitset: seq<nat>, nodes: seq<Node>, notifiers: seq<Notifier>)

  datatype Step =
    | BeginWait(i: nat) | Pump(i: nat) | Announce(i: nat) | Add(i: nat) | Check(i: nat, holds: bool) | Commit(i: nat)
    | Sleep(i: nat) | LoadInList(i: nat) | Remove(i: nat) | Destroy(i: nat)
    | Change(j: nat) | Look(j: nat) | Lock(j: nat) | Signal(j: nat)

  predicate Init(s: State) {
    && s.waitset == []
    && (forall i :: 0 <= i < |s.nodes| ==>
      s.nodes[i].(context := 0, epoch := 0) == Node(0, 0, false, false, 0, Idle, {}, None, 0, 0))
    && (forall j :: 0 <= j < |s.notifiers| ==> s.notifiers[j].stage == Ready)
  }

  /** The notifier's predicate holds of the waiter's context. */
  predicate Matches(n: Notifier, context: nat) {
    n.kind == All || n.kind == One || context in n.contexts
  }

  // ---------------------------------------------------------------- which waiters a notifier takes

  /** The waiters that match, in order. */
  function Matching(waiting: seq<nat>, nodes: seq<Node>, n: Notifier): seq<nat> {
    if waiting == [] then []
    else
      var rest, i := Matching(waiting[..|waiting| - 1], nodes, n), waiting[|waiting| - 1];
      if i < |nodes| && Matches(n, nodes[i].context) then rest + [i] else rest
  }

  /** Those a notifier takes off the waitset under the lock. */
  function Taken(waiting: seq<nat>, nodes: seq<Node>, n: Notifier): seq<nat> {
    var m := Matching(waiting, nodes, n);
    if m == [] || n.kind == All || n.kind == Each then m
    else if n.kind == One then [m[0]]
    else [m[|m| - 1]]
  }

  function Backwards(q: seq<nat>): seq<nat> { seq(|q|, k requires 0 <= k < |q| => q[|q| - 1 - k]) }

  // ---------------------------------------------------------------- steps

  predicate At(s: State, i: nat, p: Phase) { i < |s.nodes| && s.nodes[i].phase == p }

  predicate Enabled(s: State, a: Step) {
    match a
    case BeginWait(i) => At(s, i, Idle)
    case Pump(i) => At(s, i, Pumping) && s.nodes[i].sema > 0
    case Announce(i) => At(s, i, Announcing)
    case Add(i) => At(s, i, Adding)
    case Check(i, _) => At(s, i, Checking)
    case Commit(i) => At(s, i, Committing)
    case Sleep(i) => At(s, i, Sleeping) && s.nodes[i].sema > 0
    case LoadInList(i) => i < |s.nodes| && s.nodes[i].phase.Cancelling?
    case Remove(i) => i < |s.nodes| && s.nodes[i].phase.Removing?
    case Destroy(i) => At(s, i, Idle) && (s.nodes[i].skipped ==> s.nodes[i].sema > 0)
    case Change(j) => j < |s.notifiers| && s.notifiers[j].stage == Ready
    case Look(j) => j < |s.notifiers| && s.notifiers[j].stage == Looking
    case Lock(j) => j < |s.notifiers| && s.notifiers[j].stage == Locking
    case Signal(j) =>
      j < |s.notifiers| && s.notifiers[j].stage.Signalling? && s.notifiers[j].stage.temp != []
        && s.notifiers[j].stage.temp[0] < |s.nodes|
  }

  /** Consumes a signal. */
  function P(n: Node): Node
    requires n.sema > 0
  {
    n.(sema := n.sema - 1, waits := n.waits + 1)
  }

  function V(n: Node): Node { n.(sema := n.sema + 1, signals := n.signals + 1, holder := None) }

  /** The end of cancel_wait: the loop prepares the wait again, or wait returns. */
  function Retry(n: Node, again: bool): Node {
    n.(phase := if !again then Idle else if n.skipped then Pumping else Announcing)
  }

  /** What a step of a waiter does to its node. */
  function Moved(s: State, n: Node, a: Step): Node
    requires a.Pump? || a.Sleep? || (a.Destroy? && n.skipped) ==> n.sema > 0
    requires a.LoadInList? ==> n.phase.Cancelling?
    requires a.Remove? ==> n.phase.Removing?
  {
    match a
    case BeginWait(_) => n.(phase := if n.skipped then Pumping else Announcing)
    case Pump(_) => P(n).(skipped := false, phase := Announcing)
    case Announce(_) => n.(inList := true, phase := Adding)
    case Add(_) => n.(epoch := s.epoch, phase := Checking)
    case Check(_, holds) =>
      if holds then n.(skipped := true, phase := Cancelling(false)) else n.(phase := Committing, blind := Unchanged(s))
    case Commit(_) =>
      if n.epoch == s.epoch then n.(phase := Sleeping) else n.(skipped := true, phase := Cancelling(true))
    case Sleep(_) => P(n).(phase := Idle)
    case LoadInList(_) => if n.inList then n.(phase := Removing(n.phase.again)) else Retry(n, n.phase.again)
    case Remove(_) =>
      if n.inList then Retry(n.(inList := false, skipped := false), n.phase.again) else Retry(n, n.phase.again)
    case Destroy(_) => (if n.skipped then P(n).(skipped := false) else n).(phase := Dead)
    case _ => n
  }

  function Unchanged(s: State): set<nat> { set j | 0 <= j < |s.notifiers| && s.notifiers[j].stage == Ready }

  function SetStage(s: State, j: nat, stage: Stage): State
    requires j < |s.notifiers|
  {
    s.(notifiers := s.notifiers[j := s.notifiers[j].(stage := stage)])
  }

  function SignalNext(temp: seq<nat>): Stage { if temp == [] then Finished else Signalling(temp) }

  /** The nodes after notifier j took some of them off the waitset. */
  function Detached(nodes: seq<Node>, taken: seq<nat>, j: nat): seq<Node> {
    seq(|nodes|, i requires 0 <= i < |nodes| =>
      if i in taken then nodes[i].(inList := false, holder := Some(j)) else nodes[i])
  }

  function LockStep(s: State, j: nat): State
    requires Enabled(s, Lock(j))
  {
    var n := s.notifiers[j];
    var taken := Taken(s.waitset, s.nodes, n);
    SetStage(
      s.(epoch := s.epoch + 1, waitset := Without(s.waitset, taken), nodes := Detached(s.nodes, taken, j)),
      j, SignalNext(if n.kind == Each then Backwards(taken) else taken))
  }

  predicate ByNotifier(a: Step) { a.Change? || a.Look? || a.Lock? || a.Signal? }

  function WaiterStep(s: State, a: Step): State
    requires Enabled(s, a) && !ByNotifier(a)
  {
    var n := s.nodes[a.i];
    var waitset :=
      if a.Add? then s.waitset + [a.i]
      else if a.Remove? && n.inList then Without(s.waitset, [a.i])
      else s.waitset;
    s.(nodes := s.nodes[a.i := Moved(s, n, a)], waitset := waitset)
  }

  function SignalStep(s: State, j: nat): State
    requires Enabled(s, Signal(j))
  {
    var temp := s.notifiers[j].stage.temp;
    SetStage(s.(nodes := s.nodes[temp[0] := V(s.nodes[temp[0]])]), j, SignalNext(temp[1..]))
  }

  function Apply(s: State, a: Step): State
    requires Enabled(s, a)
  {
    match a
    case Change(j) => SetStage(s, j, Looking)
    case Look(j) => SetStage(s, j, if s.waitset == [] then Finished else Locking)
    case Lock(j) => LockStep(s, j)
    case Signal(j) => SignalStep(s, j)
    case _ => WaiterStep(s, a)
  }

  // ---------------------------------------------------------------- invariant

  /** Between joining the waitset and the end of the wait. */
  predicate Engaged(p: Phase) {
    p == Checking || p == Committing || p == Sleeping || p.Cancelling? || p.Removing?
  }

  /**
   A node owns exactly one of three things while it waits, and one or none outside: a place in the waitset, a notifier
   that owes it a signal, or a signal not consumed yet.
   */
  predicate NodeOk(n: Node, listed: bool, epoch: nat) {
    var owed := n.holder.Some?;
    && n.signals - n.waits == n.sema <= 1
    && !(owed && n.sema == 1) && !(listed && (owed || n.sema == 1))
    && (n.inList <==> listed || n.phase == Adding)
    && (if Engaged(n.phase) then listed || owed || n.sema == 1 else !listed && (n.skipped <==> owed || n.sema == 1))
    && (n.phase == Pumping ==> n.skipped)
    && (n.phase == Announcing || n.phase == Adding || n.phase == Dead ==> !n.skipped)
    && (n.phase == Checking || n.phase == Committing || n.phase == Sleeping ==> !n.skipped)
    && (n.phase.Cancelling? || n.phase.Removing? ==> n.skipped)
    && (Engaged(n.phase) ==> n.epoch <= epoch && (!listed ==> n.epoch < epoch))
  }

  /** A notifier still owes a signal to exactly the nodes of its list. */
  predicate HolderOk(s: State, i: nat)
    requires i < |s.nodes|
  {
    s.nodes[i].holder.Some? ==> var j := s.nodes[i].holder.value; j < |s.notifiers| && i in Temp(s.notifiers[j])
  }

  function Temp(n: Notifier): seq<nat> { if n.stage.Signalling? then n.stage.temp else [] }

  predicate NotifierOk(s: State, j: nat)
    requires j < |s.notifiers|
  {
    var n := s.notifiers[j];
    && Distinct(Temp(n))
    && (forall i :: i in Temp(n) ==> i < |s.nodes| && s.nodes[i].holder == Some(j))
    && (n.stage.Signalling? ==> n.stage.temp != [])
  }

  predicate Broadcasts(n: Notifier) { n.kind == All || n.kind == Each }

  /** A waiter that saw its condition false before notifier j changed the state, and that j is to notify. */
  predicate Concerns(s: State, i: nat, j: nat) {
    && i < |s.nodes| && j < |s.notifiers| && (s.nodes[i].phase == Committing || s.nodes[i].phase == Sleeping)
    && j in s.nodes[i].blind && Broadcasts(s.notifiers[j]) && Matches(s.notifiers[j], s.nodes[i].context)
  }

  predicate Pending(n: Notifier) { n.stage == Ready || n.stage == Looking || n.stage == Locking }

  ghost predicate Inv(s: State) {
    && Distinct(s.waitset) && (forall i :: i in s.waitset ==> i < |s.nodes|)
    && (forall i :: 0 <= i < |s.nodes| ==> NodeOk(s.nodes[i], i in s.waitset, s.epoch))
    && (forall i :: 0 <= i < |s.nodes| ==> HolderOk(s, i))
    && (forall j :: 0 <= j < |s.notifiers| ==> NotifierOk(s, j))
    && (forall i: nat, j: nat :: Concerns(s, i, j) && i in s.waitset ==> Pending(s.notifiers[j]))
  }

  // ---------------------------------------------------------------- lists

  lemma {:induction false} MatchingMembers(q: seq<nat>, nodes: seq<Node>, n: Notifier)
    ensures forall x :: x in Matching(q, nodes, n) <==> x in q && x < |nodes| && Matches(n, nodes[x].context)
    ensures Distinct(q) ==> Distinct(Matching(q, nodes, n))
  {
    if q != [] {
      MatchingMembers(q[..|q| - 1], nodes, n);
      assert q == q[..|q| - 1] + [q[|q| - 1]];
    }
  }

  lemma TakenMembers(q: seq<nat>, nodes: seq<Node>, n: Notifier)
    requires Distinct(q)
    ensures var t := Taken(q, nodes, n);
      && Distinct(t)
      && (forall x :: x in t ==> x in q && x < |nodes| && Matches(n, nodes[x].context))
      && (Broadcasts(n) ==> forall x :: x in q && x < |nodes| && Matches(n, nodes[x].context) ==> x in t)
  {
    MatchingMembers(q, nodes, n);
    var m := Matching(q, nodes, n);
    assert m != [] ==> m[0] in m && m[|m| - 1] in m;
    assert forall x :: x in Taken(q, nodes, n) ==> x in m;
  }

  lemma BackwardsMembers(q: seq<nat>)
    ensures forall x :: x in Backwards(q) <==> x in q
    ensures Distinct(q) ==> Distinct(Backwards(q))
  {
    var b := Backwards(q);
    assert forall k :: 0 <= k < |q| ==> b[k] == q[|q| - 1 - k];
    forall x | x in q
      ensures x in b
    {
      var k :| 0 <= k < |q| && q[k] == x;
      assert b[|q| - 1 - k] == x;
    }
    forall x | x in b
      ensures x in q
    {
      var k :| 0 <= k < |b| && b[k] == x;
      assert q[|q| - 1 - k] == x;
    }
  }

  // ---------------------------------------------------------------- waiters

  function ListedAfter(n: Node, a: Step, listed: bool): bool {
    if a.Add? then true else if a.Remove? then false else listed
  }

  lemma MovedOk(s: State, n: Node, a: Step, listed: bool)
    requires !ByNotifier(a) && Enabled(s, a) && n == s.nodes[a.i] && NodeOk(n, listed, s.epoch)
    ensures NodeOk(Moved(s, n, a), ListedAfter(n, a, listed), s.epoch)
    ensures Moved(s, n, a).holder == n.holder && Moved(s, n, a).context == n.context
  {
  }

  lemma WaitsetAfter(s: State, a: Step)
    requires !ByNotifier(a) && Enabled(s, a) && Distinct(s.waitset) && (forall i :: i in s.waitset ==> i < |s.nodes|)
    requires NodeOk(s.nodes[a.i], a.i in s.waitset, s.epoch)
    ensures var s' := WaiterStep(s, a);
      && Distinct(s'.waitset) && (forall i :: i in s'.waitset ==> i < |s.nodes|)
      && (forall i :: i != a.i ==> (i in s'.waitset <==> i in s.waitset))
      && (a.i in s'.waitset <==> ListedAfter(s.nodes[a.i], a, a.i in s.waitset))
  {
    WithoutMembers(s.waitset, [a.i]);
  }

  lemma WaiterKeeps(s: State, a: Step)
    requires Inv(s) && Enabled(s, a) && !ByNotifier(a)
    ensures Inv(WaiterStep(s, a))
  {
    var s' := WaiterStep(s, a);
    WaitsetAfter(s, a);
    MovedOk(s, s.nodes[a.i], a, a.i in s.waitset);
    forall i | 0 <= i < |s'.nodes|
      ensures NodeOk(s'.nodes[i], i in s'.waitset, s'.epoch) && HolderOk(s', i)
    {
      assert NodeOk(s.nodes[i], i in s.waitset, s.epoch) && HolderOk(s, i);
    }
    forall j | 0 <= j < |s'.notifiers|
      ensures NotifierOk(s', j)
    {
      assert NotifierOk(s, j);
    }
    forall i: nat, j: nat | Concerns(s', i, j) && i in s'.waitset
      ensures Pending(s'.notifiers[j])
    {
      WaiterConcerns(s, a, i, j);
    }
  }

  lemma WaiterConcerns(s: State, a: Step, i: nat, j: nat)
    requires Enabled(s, a) && !ByNotifier(a) && Concerns(WaiterStep(s, a), i, j)
    ensures Concerns(s, i, j) || s.notifiers[j].stage == Ready
    ensures !Pending(s.notifiers[j]) ==> (a.Add? || a.Remove? ==> i != a.i)
  {
  }

  // ---------------------------------------------------------------- notifiers

  lemma LookKeeps(s: State, a: Step)
    requires Inv(s) && Enabled(s, a) && (a.Change? || a.Look?)
    ensures Inv(Apply(s, a))
  {
    var s' := Apply(s, a);
    forall i | 0 <= i < |s'.nodes|
      ensures HolderOk(s', i)
    {
      assert HolderOk(s, i);
    }
    forall j | 0 <= j < |s'.notifiers|
      ensures NotifierOk(s', j)
    {
      assert NotifierOk(s, j);
    }
    forall i: nat, j: nat | Concerns(s', i, j) && i in s'.waitset
      ensures Pending(s'.notifiers[j])
    {
      assert Concerns(s, i, j);
    }
  }

  lemma DetachedOk(n: Node, j: nat, epoch: nat)
    requires NodeOk(n, true, epoch)
    ensures NodeOk(n.(inList := false, holder := Some(j)), false, epoch + 1)
  {
  }

  lemma LockEffect(s: State, j: nat)
    requires Inv(s) && Enabled(s, Lock(j))
    ensures var s', taken := LockStep(s, j), Taken(s.waitset, s.nodes, s.notifiers[j]);
      && Distinct(s'.waitset) && (forall i :: i in s'.waitset <==> i in s.waitset && i !in taken)
      && (forall i :: i in taken ==> i in s.waitset && i < |s.nodes|)
      && (forall i :: i in Temp(s'.notifiers[j]) <==> i in taken) && Distinct(Temp(s'.notifiers[j]))
      && (s'.notifiers[j].stage.Signalling? ==> s'.notifiers[j].stage.temp != [])
  {
    var taken := Taken(s.waitset, s.nodes, s.notifiers[j]);
    TakenMembers(s.waitset, s.nodes, s.notifiers[j]);
    WithoutMembers(s.waitset, taken);
    BackwardsMembers(taken);
  }

  lemma LockKeeps(s: State, j: nat)
    requires Inv(s) && Enabled(s, Lock(j))
    ensures Inv(LockStep(s, j))
  {
    var s', taken := LockStep(s, j), Taken(s.waitset, s.nodes, s.notifiers[j]);
    LockEffect(s, j);
    forall i | 0 <= i < |s'.nodes|
      ensures NodeOk(s'.nodes[i], i in s'.waitset, s'.epoch) && HolderOk(s', i)
    {
      assert NodeOk(s.nodes[i], i in s.waitset, s.epoch) && HolderOk(s, i) && NotifierOk(s, j);
      if i in taken {
        DetachedOk(s.nodes[i], j, s.epoch);
      }
    }
    forall k | 0 <= k < |s'.notifiers|
      ensures NotifierOk(s', k)
    {
      assert NotifierOk(s, k);
      assert forall i :: i in taken ==> s.nodes[i].holder == None;
    }
    forall i: nat, k: nat | Concerns(s', i, k) && i in s'.waitset
      ensures Pending(s'.notifiers[k])
    {
      assert Concerns(s, i, k);
      TakenMembers(s.waitset, s.nodes, s.notifiers[j]);
    }
  }

  lemma SignalKeeps(s: State, j: nat)
    requires Inv(s) && Enabled(s, Signal(j))
    ensures Inv(SignalStep(s, j))
  {
    var s', temp := SignalStep(s, j), s.notifiers[j].stage.temp;
    assert NotifierOk(s, j);
    assert temp[0] in Temp(s.notifiers[j]);
    forall i | 0 <= i < |s'.nodes|
      ensures NodeOk(s'.nodes[i], i in s'.waitset, s'.epoch) && HolderOk(s', i)
    {
      assert NodeOk(s.nodes[i], i in s.waitset, s.epoch) && HolderOk(s, i);
      assert i in temp && i != temp[0] ==> i in temp[1..];
    }
    forall k | 0 <= k < |s'.notifiers|
      ensures NotifierOk(s', k)
    {
      assert NotifierOk(s, k);
      assert forall i :: i in temp[1..] ==> i in temp && i != temp[0];
    }
    forall i: nat, k: nat | Concerns(s', i, k) && i in s'.waitset
      ensures Pending(s'.notifiers[k])
    {
      assert Concerns(s, i, k);
    }
  }

  lemma StepKeeps(s: State, a: Step)
    requires Inv(s) && Enabled(s, a)
    ensures Inv(Apply(s, a))
  {
    match a
    case Change(_) => LookKeeps(s, a);
    case Look(_) => LookKeeps(s, a);
    case Lock(j) => LockKeeps(s, j);
    case Signal(j) => SignalKeeps(s, j);
    case _ => WaiterKeeps(s, a);
  }
}
