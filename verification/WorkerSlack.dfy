/**
 Slack accounting and the chain-reaction wake-up of the worker pool (class private_server in
 src/tbb/private_server.cpp), before shutdown. A step is one atomic access, or a stretch of a region under
 my_asleep_list_mutex; my_slack also changes outside the lock.
 */
module WorkerSlack {
  import opened Wrappers
  import opened Sums
  import opened Sequences

  /** A call of wake_some. */
  datatype Frame =
    | Out
    | Adding(extra: nat)                         // about to contribute additional_slack
    | Claiming(k: nat)                           // has claimed k units of slack so far
    | Popping(k: nat)                            // about to lock the asleep list with k > 0 claimed units
    | Returning(k: nat, wakees: seq<nat>)        // holds the lock, about to give k unused units back
    | Waking(wakees: seq<nat>)                   // about to wake or launch the popped workers, last one first

  /** Who runs the frame, and for a worker where it is. */
  datatype Life =
    | External              // a caller of adjust_job_count_estimate
    | Asleep                // on the asleep list
    | Popped(taker: nat)       // taken off the list by that agent, not yet woken or launched
    | Woken                 // woken or launched; about to run propagate_chain_reaction
    | Running
    | Inserting             // in try_insert_in_asleep_list: contributed its unit of slack, not yet on the list

  datatype Agent = Agent(life: Life, frame: Frame)

  datatype State = State(
    slack: int,             // my_slack
    list: seq<nat>,         // the asleep list, root first
    lock: Option<nat>,      // the agent that holds my_asleep_list_mutex between two steps
    agents: seq<Agent>,
    net: int)               // net requested job count

  datatype Step =
    | Lower(d: nat) | Raise(i: nat, extra: nat) | Add(i: nat) | Claim(i: nat) | Pop(i: nat) | Return(i: nat)
    | Wake(i: nat)
    | Propagate(i: nat) | BeginInsert(i: nat) | EndInsert(i: nat)

  predicate Init(s: State) {
    && s.slack == 0 && s.net == 0 && s.lock == None
    && (forall i :: 0 <= i < |s.agents| ==> s.agents[i].frame == Out)
    && (forall i :: 0 <= i < |s.agents| ==> s.agents[i].life == Asleep || s.agents[i].life == External)
    && (forall i :: 0 <= i < |s.list| ==> s.list[i] < |s.agents| && s.agents[s.list[i]].life == Asleep)
    && (forall i, j :: 0 <= i < j < |s.list| ==> s.list[i] != s.list[j])
    && (forall i :: 0 <= i < |s.agents| && s.agents[i].life == Asleep ==> i in s.list)
  }

  predicate Enabled(s: State, a: Step) {
    match a
    case Lower(d) => true
    case Raise(i, extra) => i < |s.agents| && s.agents[i] == Agent(External, Out) && extra > 0
    case Add(i) => i < |s.agents| && s.agents[i].frame.Adding?
    case Claim(i) => i < |s.agents| && s.agents[i].frame.Claiming?
    case Pop(i) => i < |s.agents| && s.agents[i].frame.Popping? && s.lock == None
    case Return(i) => i < |s.agents| && s.agents[i].frame.Returning? && s.lock == Some(i)
    case Wake(i) => i < |s.agents| && s.agents[i].frame.Waking? && s.agents[i].frame.wakees != []
                    && s.agents[i].frame.wakees[|s.agents[i].frame.wakees| - 1] < |s.agents|
    case Propagate(i) => i < |s.agents| && s.agents[i].life == Woken
    case BeginInsert(i) => i < |s.agents| && s.agents[i] == Agent(Running, Out) && s.lock == None && s.slack < 0
    case EndInsert(i) => i < |s.agents| && s.agents[i].life == Inserting && s.lock == Some(i)
  }

  function SetFrame(s: State, i: nat, f: Frame): State
    requires i < |s.agents|
  {
    s.(agents := s.agents[i := s.agents[i].(frame := f)])
  }

  function SetLife(s: State, i: nat, l: Life): State
    requires i < |s.agents|
  {
    s.(agents := s.agents[i := s.agents[i].(life := l)])
  }

  function After(wakees: seq<nat>): Frame { if wakees == [] then Out else Waking(wakees) }

  /** The first k workers of the list, or all of them. */
  function First(list: seq<nat>, k: nat): (r: seq<nat>)
    ensures |r| <= |list| && r == list[..|r|] && (|r| == k || r == list)
  {
    if k < |list| then list[..k] else list
  }

  /** The frame after k claimed units were paired with the popped workers as far as they go. */
  function Paired(k: nat, popped: seq<nat>): Frame {
    if |popped| < k then Returning(k - |popped|, popped) else After(popped)
  }

  /** Marks the popped workers. */
  function TakeOff(agents: seq<Agent>, popped: seq<nat>, taker: nat): seq<Agent> {
    seq(|agents|, i requires 0 <= i < |agents| => if i in popped then agents[i].(life := Popped(taker)) else agents[i])
  }

  function Apply(s: State, a: Step): State
    requires Enabled(s, a)
  {
    match a
    case Lower(d) => s.(slack := s.slack - d, net := s.net - d)
    case Raise(i, extra) => SetFrame(s, i, Adding(extra))
    case Add(i) =>
      var extra := s.agents[i].frame.extra;
      SetFrame(s.(slack := s.slack + extra, net := s.net + extra), i, Claiming(0))
    case Claim(i) =>
      var k := s.agents[i].frame.k;
      if k < 2 && s.slack > 0 then SetFrame(s.(slack := s.slack - 1), i, Claiming(k + 1))
      else SetFrame(s, i, if k > 0 then Popping(k) else Out)
    case Pop(i) =>
      var k := s.agents[i].frame.k;
      var popped := First(s.list, k);
      var s' := SetFrame(s.(list := s.list[|popped|..]), i, Paired(k, popped));
      s'.(agents := TakeOff(s'.agents, popped, i), lock := if |popped| < k then Some(i) else None)
    case Return(i) =>
      var f := s.agents[i].frame;
      SetFrame(s.(slack := s.slack + f.k, lock := None), i, After(f.wakees))
    case Wake(i) =>
      var wakees := s.agents[i].frame.wakees;
      var n := |wakees| - 1;
      SetLife(SetFrame(s, i, After(wakees[..n])), wakees[n], Woken)
    case Propagate(i) =>
      s.(agents := s.agents[i := Agent(Running, if s.list == [] then Out else Claiming(0))])
    case BeginInsert(i) => SetLife(s.(slack := s.slack + 1, lock := Some(i)), i, Inserting)
    case EndInsert(i) => SetLife(s.(list := [i] + s.list, lock := None), i, Asleep)
  }

  // ---------------------------------------------------------------- invariant

  /** A worker that is neither on the asleep list nor committed to it. */
  function OffList(a: Agent): int {
    if a.life.Popped? || a.life == Woken || a.life == Running then 1 else 0
  }

  /** Units of slack claimed and not yet paired with a worker. */
  function Unpaired(a: Agent): int {
    match a.frame
    case Claiming(k) => k
    case Popping(k) => k
    case Returning(k, _) => k
    case _ => 0
  }

  function Weight(a: Agent): int { OffList(a) + Unpaired(a) }

  function Wakees(a: Agent): seq<nat> {
    match a.frame
    case Returning(_, w) => w
    case Waking(w) => w
    case _ => []
  }

  ghost predicate AgentOk(s: State, i: nat)
    requires i < |s.agents|
  {
    var a := s.agents[i];
    && (a.frame != Out ==> a.life == External || a.life == Running)
    && (a.life == Asleep <==> i in s.list)
    && (a.life == Inserting ==> s.lock == Some(i))
    && (a.frame.Returning? ==> s.lock == Some(i) && s.list == [])
    && Distinct(Wakees(a))
    && (forall k :: 0 <= k < |Wakees(a)| ==> Wakees(a)[k] < |s.agents| && s.agents[Wakees(a)[k]].life == Popped(i))
    && (a.frame.Popping? ==> a.frame.k > 0)
    && (a.frame.Waking? ==> a.frame.wakees != [])
  }

  /** Someone is on the way to waking a worker. */
  predicate Stirring(a: Agent) {
    a.life.Popped? || a.life == Woken || a.frame.Claiming? || a.frame.Popping? || Wakees(a) != []
  }

  ghost predicate Pending(s: State) { exists i :: 0 <= i < |s.agents| && Stirring(s.agents[i]) }

  /** Someone has claimed or will claim slack and has not locked the list yet. */
  ghost predicate Claimant(s: State) {
    exists i :: 0 <= i < |s.agents| && Claims(s.agents[i])
  }

  ghost predicate Chain(s: State) {
    && (s.slack > 0 && s.list != [] ==> Pending(s))
    && (s.slack > 0 && s.lock.Some? && s.lock.value < |s.agents| && s.agents[s.lock.value].life == Inserting ==>
      Claimant(s))
  }

  predicate LockOk(s: State) {
    s.lock.Some? ==>
      s.lock.value < |s.agents| && (s.agents[s.lock.value].life == Inserting || s.agents[s.lock.value].frame.Returning?)
  }

  ghost predicate Agents(s: State) {
    && Distinct(s.list)
    && (forall i :: 0 <= i < |s.list| ==> s.list[i] < |s.agents|)
    && LockOk(s)
    && (forall i :: 0 <= i < |s.agents| ==> AgentOk(s, i))
  }

  ghost predicate Inv(s: State) {
    Agents(s) && Chain(s) && s.slack + Sum(s.agents, Weight) == s.net
  }

  // ---------------------------------------------------------------- agents and the list

  /** Steps inside wake_some that change one frame, the slack or the lock. */
  lemma FrameSteps(s: State, a: Step)
    requires Agents(s) && Enabled(s, a) && (a.Raise? || a.Add? || a.Claim? || a.Return?)
    ensures Agents(Apply(s, a))
  {
    var s' := Apply(s, a);
    assert AgentOk(s, a.i);
    assert s.lock.Some? ==> AgentOk(s, s.lock.value);
    forall i | 0 <= i < |s'.agents|
      ensures AgentOk(s', i)
    {
      assert AgentOk(s, i);
      FrameAgent(s, a, i);
    }
  }

  lemma FrameAgent(s: State, a: Step, i: nat)
    requires Enabled(s, a) && (a.Raise? || a.Add? || a.Claim? || a.Return?)
    requires i < |s.agents| && AgentOk(s, i) && AgentOk(s, a.i)
    ensures AgentOk(Apply(s, a), i)
  {
    var s' := Apply(s, a);
    assert forall w :: 0 <= w < |s.agents| ==> s'.agents[w].life == s.agents[w].life;
    assert Wakees(s'.agents[i]) == Wakees(s.agents[i]);
  }

  /** Steps that change one worker's life but not its frame or anyone's wakees. */
  lemma LifeSteps(s: State, a: Step)
    requires Agents(s) && Enabled(s, a) && (a.Lower? || a.Propagate? || a.BeginInsert?)
    ensures Agents(Apply(s, a))
  {
    var s' := Apply(s, a);
    assert !a.Lower? ==> AgentOk(s, a.i);
    assert s.lock.Some? ==> AgentOk(s, s.lock.value);
    forall i | 0 <= i < |s'.agents|
      ensures AgentOk(s', i)
    {
      assert AgentOk(s, i);
    }
  }

  lemma WakeAgents(s: State, i: nat)
    requires Agents(s) && Enabled(s, Wake(i))
    ensures Agents(Apply(s, Wake(i)))
  {
    var s', w := Apply(s, Wake(i)), s.agents[i].frame.wakees;
    assert AgentOk(s, i) && AgentOk(s, w[|w| - 1]);
    assert s.agents[Wakees(s.agents[i])[|w| - 1]].life == Popped(i);
    assert s.lock.Some? ==> AgentOk(s, s.lock.value);
    forall j | 0 <= j < |s'.agents|
      ensures AgentOk(s', j)
    {
      assert AgentOk(s, j);
      WakeAgent(s, i, j);
    }
  }

  lemma WakeAgent(s: State, i: nat, j: nat)
    requires Enabled(s, Wake(i)) && j < |s.agents| && AgentOk(s, i) && AgentOk(s, j)
    requires var w := s.agents[i].frame.wakees; s.agents[w[|w| - 1]].life == Popped(i) && AgentOk(s, w[|w| - 1])
    ensures AgentOk(Apply(s, Wake(i)), j)
  {
    var s', w := Apply(s, Wake(i)), s.agents[i].frame.wakees;
    var n := |w| - 1;
    if j == i {
      Shortened(s.agents, s'.agents, w, i);
    } else {
      Bystander(s.agents, s'.agents, w[n], i, j);
    }
  }

  /** The wakees that are left are as they were. */
  lemma Shortened(agents: seq<Agent>, agents': seq<Agent>, w: seq<nat>, i: nat)
    requires w != [] && Distinct(w) && |agents'| == |agents|
    requires forall x :: 0 <= x < |agents| && x != w[|w| - 1] ==> agents'[x].life == agents[x].life
    requires forall k :: 0 <= k < |w| ==> w[k] < |agents| && agents[w[k]].life == Popped(i)
    ensures var left := w[..|w| - 1];
      Distinct(left) && forall k :: 0 <= k < |left| ==> agents'[left[k]].life == Popped(i)
  {
    var left := w[..|w| - 1];
    forall k | 0 <= k < |left|
      ensures agents'[left[k]].life == Popped(i)
    {
      assert left[k] == w[k] != w[|w| - 1];
    }
  }

  /** Nobody else's wakee is woken. */
  lemma Bystander(agents: seq<Agent>, agents': seq<Agent>, woken: nat, i: nat, j: nat)
    requires |agents'| == |agents| && woken < |agents| && agents[woken].life == Popped(i)
    requires forall x :: 0 <= x < |agents| && x != woken ==> agents'[x].life == agents[x].life
    requires i != j < |agents| && Wakees(agents'[j]) == Wakees(agents[j])
    requires forall k :: 0 <= k < |Wakees(agents[j])| ==>
      Wakees(agents[j])[k] < |agents| && agents[Wakees(agents[j])[k]].life == Popped(j)
    ensures forall k :: 0 <= k < |Wakees(agents[j])| ==> agents'[Wakees(agents[j])[k]].life == Popped(j)
  {
  }

  lemma EndInsertAgents(s: State, i: nat)
    requires Agents(s) && Enabled(s, EndInsert(i))
    ensures Agents(Apply(s, EndInsert(i)))
  {
    var s' := Apply(s, EndInsert(i));
    assert AgentOk(s, i);
    assert forall k :: 0 <= k < |s.list| ==> s.list[k] in s.list && s.list[k] != i;
    forall j | 0 <= j < |s'.agents|
      ensures AgentOk(s', j)
    {
      assert AgentOk(s, j);
      assert j in s'.list <==> j == i || j in s.list;
    }
  }

  lemma PopAgents(s: State, i: nat)
    requires Agents(s) && Enabled(s, Pop(i))
    ensures Agents(Apply(s, Pop(i)))
  {
    var s' := Apply(s, Pop(i));
    var popped := First(s.list, s.agents[i].frame.k);
    assert AgentOk(s, i);
    assert s.list == popped + s.list[|popped|..];
    forall w | w in popped
      ensures w < |s.agents| && s.agents[w].life == Asleep && s.agents[w].frame == Out
    {
      assert w in s.list && AgentOk(s, w);
    }
    forall j | 0 <= j < |s'.agents|
      ensures AgentOk(s', j)
    {
      assert AgentOk(s, j);
      PopAgent(s, s', i, j, popped);
    }
  }

  lemma PopAgent(s: State, s': State, i: nat, j: nat, popped: seq<nat>)
    requires i < |s.agents| && j < |s.agents| && AgentOk(s, j)
    requires AgentOk(s, i) && s.agents[i].frame.Popping? && s.lock == None
    requires Distinct(s.list) && popped <= s.list && s'.list == s.list[|popped|..]
    requires forall w :: w in popped ==> w < |s.agents| && s.agents[w].life == Asleep && s.agents[w].frame == Out
    requires s'.lock == None || (s'.lock == Some(i) && s'.list == [])
    requires |s'.agents| == |s.agents| && Wakees(s'.agents[i]) == popped && !s'.agents[i].frame.Popping?
    requires s'.agents[i].frame.Waking? ==> popped != []
    requires s'.agents[i].frame.Returning? ==> s'.lock == Some(i)
    requires forall x :: 0 <= x < |s.agents| ==>
      && s'.agents[x].life == (if x in popped then Popped(i) else s.agents[x].life)
      && (x != i ==> s'.agents[x].frame == s.agents[x].frame)
    ensures AgentOk(s', j)
  {
    assert s.list == popped + s'.list;
    assert j in s.list <==> j in popped || j in s'.list;
    assert !(j in popped && j in s'.list);
    if j == i {
      assert forall k :: 0 <= k < |popped| ==> popped[k] in popped;
    } else {
      assert Wakees(s'.agents[j]) == Wakees(s.agents[j]);
      assert forall k :: 0 <= k < |Wakees(s.agents[j])| ==> s.agents[Wakees(s.agents[j])[k]].life == Popped(j);
    }
  }

  lemma AgentsKept(s: State, a: Step)
    requires Agents(s) && Enabled(s, a)
    ensures Agents(Apply(s, a))
  {
    match a
    case Pop(i) => PopAgents(s, i);
    case Wake(i) => WakeAgents(s, i);
    case EndInsert(i) => EndInsertAgents(s, i);
    case Lower(_) => LifeSteps(s, a);
    case Propagate(_) => LifeSteps(s, a);
    case BeginInsert(_) => LifeSteps(s, a);
    case _ => FrameSteps(s, a);
  }

  // ---------------------------------------------------------------- the ledger

  lemma LedgerKept(s: State, a: Step)
    requires Agents(s) && Enabled(s, a) && s.slack + Sum(s.agents, Weight) == s.net
    ensures var s' := Apply(s, a); s'.slack + Sum(s'.agents, Weight) == s'.net
  {
    match a
    case Lower(_) =>
    case Pop(i) =>
      ListSleeps(s);
      PopLedger(s, i);
    case Wake(i) => WakeLedger(s, i);
    case Propagate(i) => LifeLedger(s, a, i);
    case BeginInsert(i) => LifeLedger(s, a, i);
    case EndInsert(i) => LifeLedger(s, a, i);
    case _ => FrameLedger(s, a, a.i);
  }

  /** Slack moves between my_slack and the agent's claim, or is added along with the request. */
  lemma FrameLedger(s: State, a: Step, i: nat)
    requires Enabled(s, a) && (a.Raise? || a.Add? || a.Claim? || a.Return?) && i == a.i
    ensures var s' := Apply(s, a); s'.slack + Sum(s'.agents, Weight) - s'.net == s.slack + Sum(s.agents, Weight) - s.net
  {
    SumUpdate(s.agents, i, Apply(s, a).agents[i], Weight);
  }

  /** A worker that contributes its unit of slack no longer counts as off the list. */
  lemma LifeLedger(s: State, a: Step, i: nat)
    requires Enabled(s, a) && (a.Propagate? || a.BeginInsert? || a.EndInsert?) && i == a.i && AgentOk(s, i)
    ensures var s' := Apply(s, a); s'.slack + Sum(s'.agents, Weight) - s'.net == s.slack + Sum(s.agents, Weight) - s.net
  {
    SumUpdate(s.agents, i, Apply(s, a).agents[i], Weight);
  }

  lemma WakeLedger(s: State, i: nat)
    requires Agents(s) && Enabled(s, Wake(i))
    ensures Sum(Apply(s, Wake(i)).agents, Weight) == Sum(s.agents, Weight)
  {
    var w := s.agents[i].frame.wakees;
    var n := |w| - 1;
    assert AgentOk(s, i);
    assert s.agents[Wakees(s.agents[i])[n]].life == Popped(i);
    var s1 := SetFrame(s, i, After(w[..n]));
    SumUpdate(s.agents, i, s1.agents[i], Weight);
    SumUpdate(s1.agents, w[n], s1.agents[w[n]].(life := Woken), Weight);
  }

  /** Taking distinct sleeping workers off the list adds one unit of weight for each. */
  lemma {:induction false} TakeOffWeight(agents: seq<Agent>, popped: seq<nat>, taker: nat)
    requires Distinct(popped) && Sleepers(agents, popped)
    ensures Sum(TakeOff(agents, popped, taker), Weight) == Sum(agents, Weight) + |popped|
  {
    if popped == [] {
      assert TakeOff(agents, popped, taker) == agents;
    } else {
      var n := |popped| - 1;
      var rest, w := popped[..n], popped[n];
      assert w !in rest && forall x :: x in rest ==> x in popped;
      TakeOffWeight(agents, rest, taker);
      var before := TakeOff(agents, rest, taker);
      assert forall i :: i in popped <==> i in rest || i == w;
      assert TakeOff(agents, popped, taker) == before[w := agents[w].(life := Popped(taker))];
      SumUpdate(before, w, agents[w].(life := Popped(taker)), Weight);
    }
  }

  lemma PopLedger(s: State, i: nat)
    requires Enabled(s, Pop(i)) && Distinct(s.list) && Sleepers(s.agents, s.list)
    ensures Sum(Apply(s, Pop(i)).agents, Weight) == Sum(s.agents, Weight)
  {
    var k := s.agents[i].frame.k;
    var popped := First(s.list, k);
    assert |popped| <= k && forall w :: w in popped ==> w in s.list;
    PopWeight(s.agents, i, popped, Paired(k, popped));
  }

  ghost predicate Sleepers(agents: seq<Agent>, q: seq<nat>) {
    forall w :: w in q ==> w < |agents| && agents[w].life == Asleep
  }

  lemma ListSleeps(s: State)
    requires Agents(s)
    ensures Sleepers(s.agents, s.list)
  {
    forall w | w in s.list
      ensures w < |s.agents| && s.agents[w].life == Asleep
    {
      assert AgentOk(s, w);
    }
  }

  /** Each popped worker is paired with one claimed unit. */
  lemma PopWeight(agents: seq<Agent>, i: nat, popped: seq<nat>, f: Frame)
    requires i < |agents| && Distinct(popped) && Sleepers(agents, popped)
    requires Unpaired(agents[i].(frame := f)) == Unpaired(agents[i]) - |popped|
    ensures Sum(TakeOff(agents[i := agents[i].(frame := f)], popped, i), Weight) == Sum(agents, Weight)
  {
    var agents' := agents[i := agents[i].(frame := f)];
    SumUpdate(agents, i, agents[i].(frame := f), Weight);
    TakeOffWeight(agents', popped, i);
  }

  // ---------------------------------------------------------------- the chain reaction

  predicate Claims(a: Agent) { a.frame.Claiming? || a.frame.Popping? }

  /** The other agents are where they were. */
  lemma OthersStir(s: State, s': State, i: nat)
    requires i < |s.agents| == |s'.agents| && forall j :: 0 <= j < |s.agents| && j != i ==> s'.agents[j] == s.agents[j]
    ensures Pending(s) && (Stirring(s.agents[i]) ==> Stirring(s'.agents[i])) ==> Pending(s')
    ensures Claimant(s) && (Claims(s.agents[i]) ==> Claims(s'.agents[i])) ==> Claimant(s')
  {
    if Pending(s) {
      var j :| 0 <= j < |s.agents| && Stirring(s.agents[j]);
      assert j != i ==> Stirring(s'.agents[j]);
    }
    if Claimant(s) {
      var j :| 0 <= j < |s.agents| && Claims(s.agents[j]);
      assert j != i ==> Claims(s'.agents[j]);
    }
  }

  lemma ChainKept(s: State, a: Step)
    requires Agents(s) && Chain(s) && Enabled(s, a)
    ensures Chain(Apply(s, a))
  {
    var s' := Apply(s, a);
    assert s.lock.Some? ==> AgentOk(s, s.lock.value);
    if !a.Lower? { assert AgentOk(s, a.i); }
    if !a.Lower? && !a.Pop? && !a.Wake? { OthersStir(s, s', a.i); }
    match a
    case Lower(_) =>
    case Raise(i, _) =>
    case Add(i) =>
      assert Stirring(s'.agents[i]);
    case Claim(i) =>
    case Pop(i) => PopChain(s, i);
    case Return(i) =>
    case Wake(i) => WakeChain(s, i);
    case Propagate(i) =>
    case BeginInsert(i) =>
    case EndInsert(i) =>
  }

  /** Whoever is woken has yet to propagate. */
  lemma WakeChain(s: State, i: nat)
    requires Agents(s) && Chain(s) && Enabled(s, Wake(i))
    ensures Chain(Apply(s, Wake(i)))
  {
    var s', w := Apply(s, Wake(i)), s.agents[i].frame.wakees;
    assert AgentOk(s, i) && (s.lock.Some? ==> AgentOk(s, s.lock.value));
    assert s.agents[Wakees(s.agents[i])[|w| - 1]].life == Popped(i);
    assert Stirring(s'.agents[w[|w| - 1]]);
    if Claimant(s) { WakeClaimant(s, i); }
  }

  /** Whoever takes a worker off a list that is not used up leaves a popped worker behind. */
  lemma PopChain(s: State, i: nat)
    requires Agents(s) && Enabled(s, Pop(i))
    ensures Chain(Apply(s, Pop(i)))
  {
    var s', k := Apply(s, Pop(i)), s.agents[i].frame.k;
    assert AgentOk(s, i);
    if s'.list != [] {
      assert s.list[0] in First(s.list, k);
      assert s'.agents[s.list[0]].life == Popped(i);
      assert Stirring(s'.agents[s.list[0]]);
    }
    if s'.lock.Some? {
      assert i !in s.list && First(s.list, k) == s.list;
    }
  }

  lemma WakeClaimant(s: State, i: nat)
    requires Agents(s) && Enabled(s, Wake(i)) && Claimant(s)
    ensures Claimant(Apply(s, Wake(i)))
  {
    var j :| 0 <= j < |s.agents| && Claims(s.agents[j]);
    assert Claims(Apply(s, Wake(i)).agents[j]);
  }

  // ---------------------------------------------------------------- runs

  ghost predicate Next(s: State, s': State) {
    exists a: Step :: Enabled(s, a) && Apply(s, a) == s'
  }

  /** A run interleaves any number of workers and callers of adjust_job_count_estimate. */
  ghost predicate IsRun(run: seq<State>) {
    && run != []
    && Init(run[0])
    && forall i :: 0 <= i < |run| - 1 ==> NextAt(run, i)
  }

  ghost predicate NextAt(run: seq<State>, i: nat) { i + 1 < |run| && Next(run[i], run[i + 1]) }

  lemma InitInv(s: State)
    requires Init(s)
    ensures Inv(s)
  {
    SumZero(s.agents, Weight);
    forall i | 0 <= i < |s.agents|
      ensures AgentOk(s, i)
    {
    }
  }

  lemma {:induction false} RunInv(run: seq<State>, n: nat)
    requires IsRun(run) && n < |run|
    ensures Inv(run[n])
    decreases n
  {
    if n == 0 {
      InitInv(run[0]);
    } else {
      RunInv(run, n - 1);
      assert NextAt(run, n - 1);
      var a :| Enabled(run[n - 1], a) && Apply(run[n - 1], a) == run[n];
      AgentsKept(run[n - 1], a);
      LedgerKept(run[n - 1], a);
      ChainKept(run[n - 1], a);
    }
  }

  /** Slack, workers off the asleep list and claimed units add up to the net requested job count. */
  lemma SlackLedger(run: seq<State>, n: nat)
    requires IsRun(run) && n < |run|
    ensures run[n].slack + Sum(run[n].agents, OffList) + Sum(run[n].agents, Unpaired) == run[n].net
  {
    RunInv(run, n);
    SumOfBoth(run[n].agents, OffList, Unpaired, Weight);
  }

  /**
   While there is slack and a sleeper, someone is inside wake_some or is a popped worker that has not propagated yet.
   */
  lemma ChainReaction(run: seq<State>, n: nat)
    requires IsRun(run) && n < |run| && run[n].slack > 0 && run[n].list != []
    ensures exists i :: 0 <= i < |run[n].agents| && Stirring(run[n].agents[i])
  {
    RunInv(run, n);
  }

  /** No worker is on the asleep list twice, or on it and awake. */
  lemma AsleepOnce(run: seq<State>, n: nat, i: nat)
    requires IsRun(run) && n < |run| && i < |run[n].agents|
    ensures run[n].agents[i].life == Asleep <==> i in run[n].list
    ensures forall k, l :: 0 <= k < l < |run[n].list| ==> run[n].list[k] != run[n].list[l]
  {
    RunInv(run, n);
    assert AgentOk(run[n], i);
  }

  predicate Settled(a: Agent) { a.frame == Out && (a.life == External || a.life == Asleep || a.life == Running) }

  function IsWorker(a: Agent): int { if a.life == External then 0 else 1 }

  /**
   Once everything has settled, the workers that run are the net request less the slack; and unless there are too many
   of them they are as many as requested, or all.
   */
  lemma DemandMet(run: seq<State>, n: nat)
    requires IsRun(run) && n < |run| && forall i :: 0 <= i < |run[n].agents| ==> Settled(run[n].agents[i])
    ensures var running, workers, net := Sum(run[n].agents, OffList), Sum(run[n].agents, IsWorker), run[n].net;
      && running == net - run[n].slack <= workers
      && (run[n].slack >= 0 ==> running == if net < workers then net else workers)
  {
    SlackLedger(run, n);
    RunInv(run, n);
    var s := run[n];
    SumZero(s.agents, Unpaired);
    SumBelow(s.agents, OffList, IsWorker);
    if s.slack > 0 {
      if s.list != [] {
        ChainReaction(run, n);
      }
      forall x | x in s.agents
        ensures IsWorker(x) == OffList(x)
      {
        var i :| 0 <= i < |s.agents| && s.agents[i] == x;
        assert AgentOk(s, i);
      }
      SumBelow(s.agents, IsWorker, OffList);
    }
  }

  /** Whoever is inside wake_some can go on, unless it waits for the list lock, whose holder then can. */
  lemma NeverStuck(run: seq<State>, n: nat, i: nat)
    requires IsRun(run) && n < |run| && i < |run[n].agents| && run[n].agents[i].frame != Out
    ensures exists a: Step ::
      && !a.Lower? && Enabled(run[n], a)
      && (a.i == i || (run[n].agents[i].frame.Popping? && run[n].lock == Some(a.i)))
  {
    var s := run[n];
    RunInv(run, n);
    assert AgentOk(s, i);
    match s.agents[i].frame
    case Adding(_) => assert Enabled(s, Add(i));
    case Claiming(_) => assert Enabled(s, Claim(i));
    case Returning(_, _) => assert Enabled(s, Return(i));
    case Waking(w) => WakeCan(s, i);
    case Popping(_) =>
      if s.lock == None {
        assert Enabled(s, Pop(i));
      } else {
        assert Enabled(s, Return(s.lock.value)) || Enabled(s, EndInsert(s.lock.value));
      }
  }

  lemma WakeCan(s: State, i: nat)
    requires i < |s.agents| && AgentOk(s, i) && s.agents[i].frame.Waking?
    ensures Enabled(s, Wake(i))
  {
    var w := Wakees(s.agents[i]);
    assert w[|w| - 1] < |s.agents|;
  }
}
