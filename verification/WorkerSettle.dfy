/** The worker pool settles on the number of workers requested. */
module WorkerSettle {
  import opened Wrappers
  import opened Sums
  import opened Sequences
  import opened WorkerSlack

  // ---------------------------------------------------------------- popped workers are woken

  /** A popped worker is on the list of the agent that popped it. */
  ghost predicate InGoodHands(s: State, i: nat)
    requires i < |s.agents|
  {
    s.agents[i].life.Popped? ==>
      var t := s.agents[i].life.taker; t < |s.agents| && i in Wakees(s.agents[t])
  }

  ghost predicate Awaited(s: State) { forall i :: 0 <= i < |s.agents| ==> InGoodHands(s, i) }

  lemma PopAwaited(s: State, i: nat, j: nat)
    requires Enabled(s, Pop(i)) && j < |s.agents| && InGoodHands(s, j)
    ensures j < |Apply(s, Pop(i)).agents| && InGoodHands(Apply(s, Pop(i)), j)
  {
  }

  lemma WakeAwaited(s: State, i: nat, j: nat)
    requires Enabled(s, Wake(i)) && j < |s.agents| && InGoodHands(s, j)
    requires var w := s.agents[i].frame.wakees; w[|w| - 1] != i
    ensures j < |Apply(s, Wake(i)).agents| && InGoodHands(Apply(s, Wake(i)), j)
  {
  }

  lemma OtherAwaited(s: State, a: Step, j: nat)
    requires Enabled(s, a) && !a.Pop? && !a.Wake? && j < |s.agents| && InGoodHands(s, j)
    requires !a.Lower? ==> AgentOk(s, a.i)
    ensures j < |Apply(s, a).agents| && InGoodHands(Apply(s, a), j)
  {
  }

  lemma AwaitedKept(s: State, a: Step)
    requires Agents(s) && Awaited(s) && Enabled(s, a)
    ensures Awaited(Apply(s, a))
  {
    var s' := Apply(s, a);
    if a.Wake? {
      NotItself(s, a.i);
    }
    forall j | 0 <= j < |s'.agents|
      ensures InGoodHands(s', j)
    {
      assert j < |s.agents| by { SameAgents(s, a); }
      assert InGoodHands(s, j);
      if a.Pop? {
        PopAwaited(s, a.i, j);
      } else if a.Wake? {
        WakeAwaited(s, a.i, j);
      } else {
        assert !a.Lower? && a.i < |s.agents| ==> AgentOk(s, a.i);
        OtherAwaited(s, a, j);
      }
    }
  }

  lemma SameAgents(s: State, a: Step)
    requires Enabled(s, a)
    ensures |Apply(s, a).agents| == |s.agents|
  {
  }

  lemma NotItself(s: State, i: nat)
    requires Agents(s) && Enabled(s, Wake(i))
    ensures var w := s.agents[i].frame.wakees; w[|w| - 1] != i && s.agents[w[|w| - 1]].life == Popped(i)
  {
    assert AgentOk(s, i);
    var w := Wakees(s.agents[i]);
    assert s.agents[w[|w| - 1]].life == Popped(i);
  }

  lemma NextKeeps(s: State, s': State)
    requires Agents(s) && Awaited(s) && Next(s, s')
    ensures Awaited(s')
  {
    var a :| Enabled(s, a) && Apply(s, a) == s';
    AwaitedKept(s, a);
  }

  lemma RunAgents(run: seq<State>, n: nat)
    requires IsRun(run) && n < |run|
    ensures Agents(run[n])
  {
    RunInv(run, n);
  }

  lemma {:induction false} RunAwaited(run: seq<State>, n: nat)
    requires IsRun(run) && n < |run|
    ensures Awaited(run[n])
    decreases n
  {
    if n > 0 {
      RunAwaited(run, n - 1);
      RunAgents(run, n - 1);
      assert NextAt(run, n - 1);
      NextKeeps(run[n - 1], run[n]);
    }
  }

  // ---------------------------------------------------------------- the bound

  function LifeRank(l: Life): nat {
    match l
    case External => 0
    case Running => 0
    case Woken => 8
    case Popped(_) => 9
    case Asleep => 11
    case Inserting => 12
  }

  function FrameRank(f: Frame): nat {
    match f
    case Out => 0
    case Waking(w) => |w|
    case Returning(_, w) => |w| + 1
    case Popping(_) => 3
    case Claiming(k) => if k < 2 then 6 - k else 4
    case Adding(_) => 7
  }

  function Rank(a: Agent): int { LifeRank(a.life) + FrameRank(a.frame) }

  /** Bounds the steps that can follow without a change of the request. */
  function Left(s: State): int { Sum(s.agents, Rank) + 20 * (if s.slack < 0 then -s.slack else 0) }

  lemma LeftNonNegative(s: State)
    ensures Left(s) >= 0
  {
    SumNonNegative(s.agents, Rank);
  }

  /** The step belongs to a call of adjust_job_count_estimate that begins. */
  predicate Requests(a: Step) { a.Lower? || a.Raise? }

  /** One agent changed. */
  lemma OneChanged(s: State, s': State, i: nat)
    requires i < |s.agents| == |s'.agents| && s'.agents == s.agents[i := s'.agents[i]]
    ensures Sum(s'.agents, Rank) == Sum(s.agents, Rank) - Rank(s.agents[i]) + Rank(s'.agents[i])
  {
    SumUpdate(s.agents, i, s'.agents[i], Rank);
  }

  lemma PlainShape(s: State, a: Step)
    requires Enabled(s, a) && !Requests(a) && !a.Pop? && !a.Wake? && AgentOk(s, a.i)
    ensures var s', i := Apply(s, a), a.i;
      && |s'.agents| == |s.agents| && s'.agents == s.agents[i := s'.agents[i]]
      && Rank(s'.agents[i]) < Rank(s.agents[i]) + (if a.BeginInsert? then 20 else 0)
      && (if a.BeginInsert? then s.slack < 0 && s'.slack == s.slack + 1 else s'.slack >= s.slack || s'.slack >= 0)
  {
  }

  lemma PlainLowers(s: State, a: Step)
    requires Enabled(s, a) && !Requests(a) && !a.Pop? && !a.Wake? && AgentOk(s, a.i)
    ensures Left(Apply(s, a)) < Left(s)
  {
    PlainShape(s, a);
    OneChanged(s, Apply(s, a), a.i);
  }

  lemma WakeLowers(s: State, i: nat)
    requires Agents(s) && Enabled(s, Wake(i))
    ensures Left(Apply(s, Wake(i))) < Left(s)
  {
    var w := s.agents[i].frame.wakees;
    var n, f := |w| - 1, After(w[..|w| - 1]);
    NotItself(s, i);
    var s1 := SetFrame(s, i, f);
    OneChanged(s, s1, i);
    OneChanged(s1, Apply(s, Wake(i)), w[n]);
  }

  // ---------------------------------------------------------------- popping

  /** Marking the popped workers lowers each from asleep to popped. */
  lemma {:induction false} TakenOff(agents: seq<Agent>, popped: seq<nat>, taker: nat)
    requires Distinct(popped) && forall w :: w in popped ==> w < |agents| && agents[w].life == Asleep
    ensures Sum(TakeOff(agents, popped, taker), Rank) == Sum(agents, Rank) - 2 * |popped|
  {
    if popped == [] {
      assert TakeOff(agents, popped, taker) == agents;
    } else {
      var n := |popped| - 1;
      var last, rest := popped[n], popped[..n];
      assert forall w :: w in rest ==> w in popped;
      assert last in popped && last !in rest;
      TakenOff(agents, rest, taker);
      var before := TakeOff(agents, rest, taker);
      assert before[last] == agents[last];
      assert popped == rest + [last];
      assert TakeOff(agents, popped, taker) == before[last := before[last].(life := Popped(taker))];
      SumUpdate(before, last, before[last].(life := Popped(taker)), Rank);
    }
  }

  lemma PopLowers(s: State, i: nat)
    requires Agents(s) && Enabled(s, Pop(i))
    ensures Left(Apply(s, Pop(i))) < Left(s)
  {
    var k := s.agents[i].frame.k;
    var popped := First(s.list, k);
    PoppedAsleep(s, i, popped);
    var marked := TakeOff(s.agents[i := s.agents[i].(frame := Paired(k, popped))], popped, i);
    PopAccount(s.agents, i, k, popped, marked);
    assert Apply(s, Pop(i)).agents == marked && Apply(s, Pop(i)).slack == s.slack;
  }

  lemma PopAccount(agents: seq<Agent>, i: nat, k: nat, popped: seq<nat>, marked: seq<Agent>)
    requires i < |agents| && agents[i].frame == Popping(k) && Distinct(popped)
    requires forall w :: w in popped ==> w < |agents| && agents[w].life == Asleep && w != i
    requires marked == TakeOff(agents[i := agents[i].(frame := Paired(k, popped))], popped, i)
    ensures Sum(marked, Rank) < Sum(agents, Rank)
  {
    var framed := agents[i := agents[i].(frame := Paired(k, popped))];
    SumUpdate(agents, i, framed[i], Rank);
    TakenOff(framed, popped, i);
  }

  lemma PoppedAsleep(s: State, i: nat, popped: seq<nat>)
    requires Agents(s) && Enabled(s, Pop(i)) && popped == First(s.list, s.agents[i].frame.k)
    ensures Distinct(popped) && forall w :: w in popped ==> w < |s.agents| && s.agents[w].life == Asleep && w != i
  {
    assert AgentOk(s, i);
    forall w | w in popped
      ensures w < |s.agents| && s.agents[w].life == Asleep && w != i
    {
      assert w in s.list && AgentOk(s, w);
    }
  }

  /** Every step inside the pool brings it closer to rest. */
  lemma StepLowers(s: State, a: Step)
    requires Agents(s) && Enabled(s, a) && !Requests(a)
    ensures Left(Apply(s, a)) < Left(s)
  {
    assert AgentOk(s, a.i);
    if a.Pop? {
      PopLowers(s, a.i);
    } else if a.Wake? {
      WakeLowers(s, a.i);
    } else {
      PlainLowers(s, a);
    }
  }

  // ---------------------------------------------------------------- rest

  /** Nothing is left to do: everybody has settled, and if too many workers were requested to stop none runs. */
  predicate AtRest(s: State) {
    && (forall i :: 0 <= i < |s.agents| ==> Settled(s.agents[i]))
    && (s.slack < 0 ==> forall i :: 0 <= i < |s.agents| ==> s.agents[i].life != Running)
  }

  ghost predicate CanStep(s: State) { exists a: Step :: !Requests(a) && Enabled(s, a) }

  /** Whoever holds the list lock can go on. */
  lemma HolderCanStep(s: State)
    requires Agents(s) && s.lock.Some?
    ensures CanStep(s)
  {
    var h := s.lock.value;
    assert AgentOk(s, h);
    assert Enabled(s, Return(h)) || Enabled(s, EndInsert(h));
  }

  lemma FrameCanStep(s: State, i: nat)
    requires Agents(s) && i < |s.agents| && s.agents[i].frame != Out
    ensures CanStep(s)
  {
    assert AgentOk(s, i);
    if s.lock.Some? || s.agents[i].frame.Returning? {
      HolderCanStep(s);
    } else if s.agents[i].frame.Waking? {
      WakeCan(s, i);
      assert Enabled(s, Wake(i));
    } else {
      assert Enabled(s, Add(i)) || Enabled(s, Claim(i)) || Enabled(s, Pop(i));
    }
  }

  lemma AgentCanStep(s: State, i: nat)
    requires Agents(s) && Awaited(s) && i < |s.agents| && !Settled(s.agents[i])
    ensures CanStep(s)
  {
    assert AgentOk(s, i) && InGoodHands(s, i);
    if s.agents[i].frame != Out {
      FrameCanStep(s, i);
    } else if s.agents[i].life.Popped? {
      FrameCanStep(s, s.agents[i].life.taker);
    } else if s.agents[i].life == Woken {
      assert Enabled(s, Propagate(i));
    } else {
      assert Enabled(s, EndInsert(i));
    }
  }

  /** A step is possible unless the pool is at rest; in particular a worker can go to sleep while there are too many. */
  lemma RestsOrSteps(s: State)
    requires Agents(s) && Awaited(s) && !AtRest(s)
    ensures CanStep(s)
  {
    if i :| 0 <= i < |s.agents| && !Settled(s.agents[i]) {
      AgentCanStep(s, i);
    } else if s.lock.Some? {
      HolderCanStep(s);
    } else {
      var i :| 0 <= i < |s.agents| && s.agents[i].life == Running;
      assert Settled(s.agents[i]);
      assert Enabled(s, BeginInsert(i));
    }
  }

  /** At rest as many workers run as are requested, or all if there are fewer; none if the request is negative. */
  lemma RunningAtRest(run: seq<State>, n: nat)
    requires IsRun(run) && n < |run| && AtRest(run[n])
    ensures var running, workers, net := Sum(run[n].agents, OffList), Sum(run[n].agents, IsWorker), run[n].net;
      running == if net < 0 then 0 else if net < workers then net else workers
  {
    var s := run[n];
    DemandMet(run, n);
    SumNonNegative(s.agents, OffList);
    if s.slack < 0 {
      SumZero(s.agents, OffList);
    }
  }

  // ---------------------------------------------------------------- runs

  /** s' follows s by a step inside the pool. */
  ghost predicate Continues(s: State, s': State) {
    exists a: Step :: !Requests(a) && Enabled(s, a) && Apply(s, a) == s'
  }

  ghost predicate Quiet(run: seq<State>, m: nat) {
    forall k :: m <= k < |run| - 1 ==> QuietAt(run, k)
  }

  ghost predicate QuietAt(run: seq<State>, k: nat) { k + 1 < |run| && Continues(run[k], run[k + 1]) }

  lemma Extended(run: seq<State>, s': State)
    requires IsRun(run) && Next(run[|run| - 1], s')
    ensures IsRun(run + [s'])
  {
    var longer := run + [s'];
    forall i | 0 <= i < |longer| - 1
      ensures NextAt(longer, i)
    {
      assert i < |run| - 1 ==> NextAt(run, i);
    }
  }

  lemma OneMore(run: seq<State>) returns (s': State)
    requires IsRun(run) && !AtRest(run[|run| - 1])
    ensures IsRun(run + [s']) && Continues(run[|run| - 1], s') && Left(s') < Left(run[|run| - 1])
  {
    var s := run[|run| - 1];
    RunAgents(run, |run| - 1);
    RunAwaited(run, |run| - 1);
    RestsOrSteps(s);
    var a: Step :| !Requests(a) && Enabled(s, a);
    s' := Apply(s, a);
    StepLowers(s, a);
    assert Next(s, s');
    Extended(run, s');
  }

  /** A run, one more state, and what follows that. */
  lemma Joined(run: seq<State>, s': State, rest: seq<State>)
    requires run != [] && Continues(run[|run| - 1], s') && Quiet(run + [s'] + rest, |run|) && IsRun(run + [s'] + rest)
    ensures IsRun(run + ([s'] + rest)) && Quiet(run + ([s'] + rest), |run| - 1)
    ensures run + ([s'] + rest) == run + [s'] + rest
  {
    var all := run + ([s'] + rest);
    assert all == run + [s'] + rest;
    forall k | |run| - 1 <= k < |all| - 1
      ensures QuietAt(all, k)
    {
      if k == |run| - 1 {
        assert all[k] == run[k] && all[k + 1] == s';
      }
    }
  }

  /**
   Every run can be carried on, without a new request, to one that is at rest; it takes at most Left steps, and there is
   no way to get stuck before. With RunningAtRest: the pool settles on the number of workers requested.
   */
  lemma {:induction false} SettlesInTheEnd(run: seq<State>) returns (more: seq<State>)
    requires IsRun(run)
    ensures IsRun(run + more) && Quiet(run + more, |run| - 1) && |more| <= Left(run[|run| - 1])
    ensures AtRest((run + more)[|run + more| - 1])
    decreases Left(run[|run| - 1])
  {
    var n := |run| - 1;
    LeftNonNegative(run[n]);
    if AtRest(run[n]) {
      more := [];
      assert run + more == run;
    } else {
      var s' := OneMore(run);
      LeftNonNegative(s');
      assert (run + [s'])[n + 1] == s';
      var rest := SettlesInTheEnd(run + [s']);
      more := [s'] + rest;
      Joined(run, s', rest);
    }
  }

  // ---------------------------------------------------------------- two at a time

  /** A call of wake_some has claimed at most two units, and holds at most two workers. */
  predicate TwoAtMost(f: Frame) {
    match f
    case Claiming(k) => k <= 2
    case Popping(k) => k <= 2
    case Returning(k, w) => k + |w| <= 2
    case Waking(w) => |w| <= 2
    case _ => true
  }

  ghost predicate Narrow(s: State) { forall i :: 0 <= i < |s.agents| ==> TwoAtMost(s.agents[i].frame) }

  lemma NarrowPop(s: State, i: nat, j: nat)
    requires Enabled(s, Pop(i)) && j < |s.agents| && TwoAtMost(s.agents[j].frame)
    ensures j < |Apply(s, Pop(i)).agents| && TwoAtMost(Apply(s, Pop(i)).agents[j].frame)
  {
    var k := s.agents[i].frame.k;
    assert |First(s.list, k)| <= k;
    assert j != i ==> Apply(s, Pop(i)).agents[j].frame == s.agents[j].frame;
  }

  lemma NarrowWake(s: State, i: nat, j: nat)
    requires Enabled(s, Wake(i)) && j < |s.agents| && TwoAtMost(s.agents[j].frame)
    ensures j < |Apply(s, Wake(i)).agents| && TwoAtMost(Apply(s, Wake(i)).agents[j].frame)
  {
    assert j != i ==> Apply(s, Wake(i)).agents[j].frame == s.agents[j].frame;
  }

  lemma NarrowOther(s: State, a: Step, j: nat)
    requires Enabled(s, a) && !a.Pop? && !a.Wake? && j < |s.agents| && TwoAtMost(s.agents[j].frame)
    ensures j < |Apply(s, a).agents| && TwoAtMost(Apply(s, a).agents[j].frame)
  {
  }

  lemma NarrowStep(s: State, a: Step, j: nat)
    requires Enabled(s, a) && j < |s.agents| && TwoAtMost(s.agents[j].frame)
    ensures j < |Apply(s, a).agents| && TwoAtMost(Apply(s, a).agents[j].frame)
  {
    if a.Pop? {
      NarrowPop(s, a.i, j);
    } else if a.Wake? {
      NarrowWake(s, a.i, j);
    } else {
      NarrowOther(s, a, j);
    }
  }

  lemma NextNarrow(s: State, s': State)
    requires Narrow(s) && Next(s, s')
    ensures Narrow(s')
  {
    var a :| Enabled(s, a) && Apply(s, a) == s';
    SameAgents(s, a);
    forall j | 0 <= j < |s'.agents|
      ensures TwoAtMost(s'.agents[j].frame)
    {
      NarrowStep(s, a, j);
    }
  }

  /** The array of wakees of wake_some, which has two places, is never overrun. */
  lemma {:induction false} WakeesFit(run: seq<State>, n: nat)
    requires IsRun(run) && n < |run|
    ensures forall i :: 0 <= i < |run[n].agents| ==> TwoAtMost(run[n].agents[i].frame)
    decreases n
  {
    if n > 0 {
      WakeesFit(run, n - 1);
      assert NextAt(run, n - 1);
      NextNarrow(run[n - 1], run[n]);
    }
  }

  /** wake_some stops claiming only with two units, or when no slack is left. */
  lemma ClaimsUpToTwo(run: seq<State>, n: nat, i: nat)
    requires IsRun(run) && n < |run| && Enabled(run[n], Claim(i))
    ensures var f, f' := run[n].agents[i].frame, Apply(run[n], Claim(i)).agents[i].frame;
      if f'.Claiming? then f'.k == f.k + 1 && Apply(run[n], Claim(i)).slack == run[n].slack - 1
      else (f.k == 2 || run[n].slack <= 0) && f' == if f.k == 0 then Out else Popping(f.k)
  {
    WakeesFit(run, n);
  }

  // ---------------------------------------------------------------- what is requested

  /** The change of the request that the step makes or announces. */
  function Asked(a: Step): int {
    match a
    case Lower(d) => 0 - d
    case Raise(_, extra) => extra
    case _ => 0
  }

  /** What has been announced and not yet added. */
  function Announced(a: Agent): int { if a.frame.Adding? then a.frame.extra else 0 }

  predicate Takes(s: State, a: Step, s': State) { Enabled(s, a) && Apply(s, a) == s' }

  /** A run with the steps it takes. */
  ghost predicate IsTrail(run: seq<State>, steps: seq<Step>) {
    && |run| == |steps| + 1 && Init(run[0])
    && forall k :: 0 <= k < |steps| ==> StepAt(run, steps, k)
  }

  predicate StepAt(run: seq<State>, steps: seq<Step>, k: nat) {
    k < |steps| && k + 1 < |run| && Takes(run[k], steps[k], run[k + 1])
  }

  lemma TrailAgents(run: seq<State>, steps: seq<Step>, n: nat)
    requires IsTrail(run, steps) && n < |run|
    ensures Agents(run[n])
  {
    forall i | 0 <= i < |run| - 1
      ensures NextAt(run, i)
    {
      assert StepAt(run, steps, i);
    }
    RunAgents(run, n);
  }

  lemma RequestStep(s: State, a: Step)
    requires Agents(s) && Enabled(s, a)
    ensures Apply(s, a).net + Sum(Apply(s, a).agents, Announced) == s.net + Sum(s.agents, Announced) + Asked(a)
  {
    var s' := Apply(s, a);
    if a.Pop? {
      PopAnnounced(s, a.i);
    } else if a.Wake? {
      WakeAnnounced(s, a.i);
    } else if !a.Lower? {
      assert AgentOk(s, a.i);
      PlainRequest(s, a);
      SumUpdate(s.agents, a.i, s'.agents[a.i], Announced);
    }
  }

  lemma PlainRequest(s: State, a: Step)
    requires Enabled(s, a) && !a.Pop? && !a.Wake? && !a.Lower? && a.i < |s.agents| && AgentOk(s, a.i)
    ensures var s', i := Apply(s, a), a.i;
      && i < |s.agents| == |s'.agents| && s'.agents == s.agents[i := s'.agents[i]]
      && s'.net + Announced(s'.agents[i]) == s.net + Announced(s.agents[i]) + Asked(a)
  {
  }

  lemma PopAnnounced(s: State, i: nat)
    requires Enabled(s, Pop(i))
    ensures Sum(Apply(s, Pop(i)).agents, Announced) == Sum(s.agents, Announced)
  {
    SameSums(s.agents, Apply(s, Pop(i)).agents);
  }

  lemma WakeAnnounced(s: State, i: nat)
    requires Enabled(s, Wake(i))
    ensures Sum(Apply(s, Wake(i)).agents, Announced) == Sum(s.agents, Announced)
  {
    SameSums(s.agents, Apply(s, Wake(i)).agents);
  }

  lemma {:induction false} SameSums(agents: seq<Agent>, agents': seq<Agent>)
    requires |agents'| == |agents| && forall i :: 0 <= i < |agents| ==> Announced(agents'[i]) == Announced(agents[i])
    ensures Sum(agents', Announced) == Sum(agents, Announced)
  {
    if agents != [] {
      SameSums(agents[..|agents| - 1], agents'[..|agents| - 1]);
    }
  }

  /** The net request is the sum of what adjust_job_count_estimate was asked for, but for what is still to be added. */
  lemma {:induction false} NetRequested(run: seq<State>, steps: seq<Step>, n: nat)
    requires IsTrail(run, steps) && n < |run|
    ensures run[n].net + Sum(run[n].agents, Announced) == Sum(steps[..n], Asked)
    decreases n
  {
    if n == 0 {
      SumZero(run[0].agents, Announced);
    } else {
      var l := n - 1;
      NetRequested(run, steps, l);
      assert StepAt(run, steps, l);
      TrailAgents(run, steps, l);
      RequestStep(run[l], steps[l]);
      assert steps[..n] == steps[..l] + [steps[l]];
      SumAppend(steps[..l], steps[l], Asked);
    }
  }
}
