/** Once the input ends the pipeline finishes: every step but the reading of an item brings the end closer. */
module PipelineDrain {
  import opened Wrappers
  import opened InputBuffer
  import opened Sums
  import opened Pipeline
  import opened PipelineInv
  import opened PipelineProof
  import opened PipelineRuns

  /** What is left to do for an item at filter f, of n. */
  function At(n: nat, f: nat): nat { (if f <= n then 8 * (n - f) else 0) + 20 }

  /** Bounds the steps left of a task. */
  function TaskRank(n: nat): Task -> int {
    (t: Task) =>
      match t.phase
      case Done => 0
      case ParReading => 1
      case Reading => 2
      case ParClaiming => 2
      case Start => 3
      case Recycling => 4
      case ParSpawning => 5
      case Returning => 20
      case Waking(_) => At(n, t.filter) + 1
      case Releasing => At(n, t.filter) + 2
      case Running => At(n, t.filter) + 3
      case Ready => At(n, t.filter) + 4
      case Moving => At(n, t.filter) + 6
      case Claiming => 8 * n + 15
      case Spawning => 8 * n + 24
  }

  /** Bounds the steps left for an item that no task carries. */
  function HomeRank(n: nat): Home -> int {
    (h: Home) =>
      match h.place
      case Woken(_) => At(n, h.pos) + 5
      case Deferred(f, _) => At(n, f) + 5
      case _ => 0
  }

  /** Bounds the steps that can follow without the reading of an item. */
  function Left(s: State): int {
    Sum(s.tasks, TaskRank(|s.filters|)) + Sum(s.home, HomeRank(|s.filters|)) + 10 * s.tokens
  }

  lemma LeftNonNegative(s: State)
    requires s.tokens >= 0
    ensures Left(s) >= 0
  {
    SumNonNegative(s.tasks, TaskRank(|s.filters|));
    SumNonNegative(s.home, HomeRank(|s.filters|));
  }

  /** The step reads an item, or the input filter declares the end of the input. */
  predicate FromInput(a: Step) { a.Read? || a.ParRead? || a.StopInput? }

  // ---------------------------------------------------------------- accounting

  /** Task i changed and possibly one task was added. */
  lemma TasksAccount(s: State, s': State, i: nat)
    requires i < |s.tasks| <= |s'.tasks| <= |s.tasks| + 1 && s'.filters == s.filters
    requires s'.tasks[..|s.tasks|] == s.tasks[i := s'.tasks[i]]
    ensures var w := TaskRank(|s.filters|);
      Sum(s'.tasks, w) - Sum(s.tasks, w) ==
      w(s'.tasks[i]) - w(s.tasks[i]) + (if |s'.tasks| > |s.tasks| then w(s'.tasks[|s.tasks|]) else 0)
  {
    var t, w := s.tasks[i := s'.tasks[i]], TaskRank(|s.filters|);
    SumUpdate(s.tasks, i, s'.tasks[i], w);
    if |s'.tasks| > |s.tasks| {
      assert s'.tasks == t + [s'.tasks[|s.tasks|]];
      SumAppend(t, s'.tasks[|s.tasks|], w);
    } else {
      assert s'.tasks == t;
    }
  }

  /** The place of item x changed. */
  lemma HomesAccount(s: State, s': State, x: nat)
    requires x < |s.home| == |s'.home| && s'.filters == s.filters && s'.home == s.home[x := s'.home[x]]
    ensures var w := HomeRank(|s.filters|);
      Sum(s'.home, w) - Sum(s.home, w) == w(s'.home[x]) - w(s.home[x])
  {
    SumUpdate(s.home, x, s'.home[x], HomeRank(|s.filters|));
  }

  /** A task that turns to the next filter has less to do than one that is done with filter f and its buffer. */
  lemma OnwardRank(s: State, i: nat, f: nat, info: Info)
    requires Sane(s) && i < |s.tasks| && f < |s.filters|
    ensures var s', n := Onward(s, i, f, info), |s.filters|;
      && s'.tasks == s.tasks[i := s'.tasks[i]] && TaskRank(n)(s'.tasks[i]) < At(n, f)
      && s'.filters == s.filters && s'.tokens == s.tokens
  {
  }

  lemma OnwardHomes(s: State, i: nat, f: nat, info: Info)
    requires Sane(s) && i < |s.tasks| && f < |s.filters|
    requires info.item < |s.home| && s.home[info.item].place.InTask?
    ensures Sum(Onward(s, i, f, info).home, HomeRank(|s.filters|)) == Sum(s.home, HomeRank(|s.filters|))
  {
    var s', x := Onward(s, i, f, info), info.item;
    assert s'.home == s.home[x := s'.home[x]];
    HomesAccount(s, s', x);
  }

  /** Task i changed, at most one task was added, and at most item x changed its place. */
  ghost predicate Change(s: State, s': State, i: nat, x: nat) {
    && i < |s.tasks| <= |s'.tasks| <= |s.tasks| + 1 && s'.filters == s.filters
    && s'.tasks[..|s.tasks|] == s.tasks[i := s'.tasks[i]]
    && x < |s.home| == |s'.home| && s'.home == s.home[x := s'.home[x]]
  }

  /** By how much the change raises the bound. */
  function Gain(s: State, s': State, i: nat, x: nat): int
    requires i < |s.tasks| <= |s'.tasks| && x < |s.home| && x < |s'.home|
  {
    var w, h := TaskRank(|s.filters|), HomeRank(|s.filters|);
    w(s'.tasks[i]) - w(s.tasks[i]) + (if |s'.tasks| > |s.tasks| then w(s'.tasks[|s.tasks|]) else 0)
    + h(s'.home[x]) - h(s.home[x]) + 10 * (s'.tokens - s.tokens)
  }

  lemma Account(s: State, s': State, i: nat, x: nat)
    requires Change(s, s', i, x)
    ensures Left(s') == Left(s) + Gain(s, s', i, x)
  {
    TasksAccount(s, s', i);
    HomesAccount(s, s', x);
  }

  /** The same for a step that moves no item. */
  lemma AccountTask(s: State, s': State, i: nat)
    requires i < |s.tasks| == |s'.tasks| && s'.filters == s.filters && s'.home == s.home
    requires s'.tasks == s.tasks[i := s'.tasks[i]]
    ensures var w := TaskRank(|s.filters|);
      Left(s') == Left(s) + w(s'.tasks[i]) - w(s.tasks[i]) + 10 * (s'.tokens - s.tokens)
  {
    TasksAccount(s, s', i);
  }

  // ---------------------------------------------------------------- steps

  /** What the step does to its task, when it does no more. */
  lemma BareShape(s: State, a: Step)
    requires Enabled(s, a) && (a.Begin? || a.EndRead? || a.ParEnd? || a.Recycle?)
    ensures var s', i := Apply(s, a), a.i;
      && |s'.tasks| == |s.tasks| && s'.tasks == s.tasks[i := s'.tasks[i]]
      && s'.filters == s.filters && s'.home == s.home
      && s'.tokens == s.tokens && TaskRank(|s.filters|)(s'.tasks[i]) < TaskRank(|s.filters|)(s.tasks[i])
  {
  }

  lemma BareLowers(s: State, a: Step)
    requires Enabled(s, a) && (a.Begin? || a.EndRead? || a.ParEnd? || a.Recycle?)
    ensures Left(Apply(s, a)) < Left(s)
  {
    BareShape(s, a);
    AccountTask(s, Apply(s, a), a.i);
  }

  /** A task that is done with filter f, having at least that much left, turns to the next one. */
  lemma OnwardLowers(s: State, i: nat, f: nat, info: Info)
    requires Sane(s) && i < |s.tasks| && f < |s.filters|
    requires info.item < |s.home| && s.home[info.item].place.InTask?
    ensures var w := TaskRank(|s.filters|);
      Left(Onward(s, i, f, info)) < Left(s) - w(s.tasks[i]) + At(|s.filters|, f)
  {
    var s' := Onward(s, i, f, info);
    OnwardRank(s, i, f, info);
    OnwardHomes(s, i, f, info);
    TasksAccount(s, s', i);
  }

  lemma ClaimShape(s: State, i: nat)
    requires Enabled(s, Claim(i)) && !(s.tasks[i].phase == Claiming && s.tokens <= 1)
    ensures var s' := Apply(s, Claim(i));
      && |s'.tasks| == |s.tasks| && s'.tasks == s.tasks[i := s'.tasks[i]]
      && s'.filters == s.filters && s'.home == s.home
      && s'.tokens == s.tokens - 1 && TaskRank(|s.filters|)(s'.tasks[i]) < TaskRank(|s.filters|)(s.tasks[i]) + 10
  {
  }

  lemma ClaimLowers(s: State, i: nat)
    requires Enabled(s, Claim(i)) && TaskOk(s, i)
    ensures Left(Apply(s, Claim(i))) < Left(s)
  {
    if s.tasks[i].phase == Claiming && s.tokens <= 1 {
      OnwardLowers(s.(tokens := s.tokens - 1), i, 0, s.tasks[i].info);
    } else {
      ClaimShape(s, i);
      AccountTask(s, Apply(s, Claim(i)), i);
    }
  }

  lemma SpawnLowers(s: State, i: nat)
    requires Enabled(s, SpawnNext(i)) && TaskOk(s, i)
    ensures Left(Apply(s, SpawnNext(i))) < Left(s)
  {
    var s1 := s.(tasks := s.tasks + [START]);
    SumAppend(s.tasks, START, TaskRank(|s.filters|));
    assert Left(s1) == Left(s) + 3;
    if s.tasks[i].phase == Spawning {
      SpawnOnward(s, s1, i);
    } else {
      ParSpawnShape(s, s1, i);
      AccountTask(s1, Apply(s, SpawnNext(i)), i);
    }
  }

  lemma SpawnOnward(s: State, s1: State, i: nat)
    requires Enabled(s, SpawnNext(i)) && TaskOk(s, i) && s.tasks[i].phase == Spawning
    requires s1 == s.(tasks := s.tasks + [START])
    ensures Left(Apply(s, SpawnNext(i))) < Left(s1) - 3
  {
    OnwardLowers(s1, i, 0, s.tasks[i].info);
  }

  lemma ParSpawnShape(s: State, s1: State, i: nat)
    requires Enabled(s, SpawnNext(i)) && s.tasks[i].phase == ParSpawning && s1 == s.(tasks := s.tasks + [START])
    ensures var s' := Apply(s, SpawnNext(i));
      && |s'.tasks| == |s1.tasks| && s'.tasks == s1.tasks[i := s'.tasks[i]] && s'.tasks[i].phase == ParReading
      && s1.tasks[i] == s.tasks[i] && s'.filters == s.filters && s'.home == s.home && s'.tokens == s.tokens
  {
  }

  lemma RunShape(s: State, a: Step)
    requires Enabled(s, a) && (a.Run? || (a.Finish? && Serial(s.filters[s.tasks[a.i].filter])))
    ensures var s', i := Apply(s, a), a.i;
      && |s'.tasks| == |s.tasks| && s'.tasks == s.tasks[i := s'.tasks[i]]
      && s'.filters == s.filters && s'.home == s.home
      && s'.tokens == s.tokens && TaskRank(|s.filters|)(s'.tasks[i]) < TaskRank(|s.filters|)(s.tasks[i])
  {
  }

  lemma FilterLowers(s: State, a: Step)
    requires Enabled(s, a) && (a.Run? || a.Finish?) && TaskOk(s, a.i)
    ensures Left(Apply(s, a)) < Left(s)
  {
    var t := s.tasks[a.i];
    if a.Finish? && !Serial(s.filters[t.filter]) {
      OnwardLowers(s, a.i, t.filter, t.info);
    } else {
      RunShape(s, a);
      AccountTask(s, Apply(s, a), a.i);
    }
  }

  lemma ReturnShape(s: State, i: nat)
    requires Enabled(s, Return(i)) && TaskOk(s, i)
    ensures var s', x := Apply(s, Return(i)), s.tasks[i].info.item;
      && x < |s.home| == |s'.home| && s.home[x].place.InTask? && s'.home == s.home[x := s'.home[x]]
      && s'.home[x].place == Out && |s'.tasks| == |s.tasks| && s'.tasks == s.tasks[i := s'.tasks[i]]
      && (s'.tasks[i].phase == Done || s'.tasks[i].phase == Recycling)
      && s'.filters == s.filters && s'.tokens == s.tokens + 1
  {
  }

  lemma ReturnLowers(s: State, i: nat)
    requires Enabled(s, Return(i)) && TaskOk(s, i)
    ensures Left(Apply(s, Return(i))) < Left(s)
  {
    ReturnShape(s, i);
    Account(s, Apply(s, Return(i)), i, s.tasks[i].info.item);
  }

  lemma PutLowers(s: State, i: nat)
    requires Config(s) && Enabled(s, PutNext(i)) && TaskOk(s, i)
    ensures Left(Apply(s, PutNext(i))) < Left(s)
  {
    var s', x := Apply(s, PutNext(i)), s.tasks[i].info.item;
    PutShape(s, s', i, s.tasks[i].filter);
    PutAccount(s, s', i, x);
  }

  lemma PutAccount(s: State, s': State, i: nat, x: nat)
    requires i < |s.tasks| == |s'.tasks| && x < |s.home| == |s'.home|
    requires s'.filters == s.filters && s'.tokens == s.tokens
    requires s'.tasks == s.tasks[i := s'.tasks[i]] && s'.home == s.home[x := s'.home[x]]
    requires s.home[x].place.InTask? && s.tasks[i].phase == Moving
    requires var f := s.tasks[i].filter;
      || (s'.tasks[i].phase == Ready && s'.tasks[i].filter == f && s'.home[x].place.InTask?)
      || (s'.tasks[i].phase == Done && s'.home[x].place.Deferred? && s'.home[x].place.filter == f)
    ensures Left(s') < Left(s)
  {
    Account(s, s', i, x);
  }

  lemma IdleLowers(s: State, i: nat, f: nat)
    requires Config(s) && Enabled(s, Release(i)) && Fed(s, f) && f == s.tasks[i].filter && TaskOk(s, i)
    requires s.stages[f].buffer.low + 1 !in s.stages[f].buffer.deferred
    ensures Left(Apply(s, Release(i))) < Left(s)
  {
    IdleBaseOk(s, i, f);
    OnwardLowers(IdleBase(s, i, f), i, f, s.tasks[i].info);
  }

  lemma WakesLowers(s: State, i: nat, f: nat)
    requires Config(s) && Enabled(s, Release(i)) && Fed(s, f) && f == s.tasks[i].filter && DeferredOk(s, f)
    requires s.stages[f].buffer.low + 1 in s.stages[f].buffer.deferred
    ensures Left(Apply(s, Release(i))) < Left(s)
  {
    var s' := Apply(s, Release(i));
    var x := s.stages[f].buffer.deferred[s.stages[f].buffer.low + 1].item;
    WakesShape(s, s', i, f);
    WakesAccount(s, s', i, f, x);
  }

  lemma WakesAccount(s: State, s': State, i: nat, f: nat, x: nat)
    requires i < |s.tasks| == |s'.tasks| && x < |s.home| == |s'.home|
    requires s'.filters == s.filters && s'.tokens == s.tokens
    requires s'.tasks == s.tasks[i := s'.tasks[i]] && s'.home == s.home[x := s'.home[x]]
    requires s.tasks[i].phase == Releasing && s'.tasks[i].phase.Waking? && s.tasks[i].filter == s'.tasks[i].filter
    requires s.home[x].place.Deferred? && s.home[x].place.filter == f && s'.home[x].pos == f && s'.home[x].place.Woken?
    ensures Left(s') < Left(s)
  {
    Account(s, s', i, x);
  }

  lemma WakeLowers(s: State, i: nat, f: nat)
    requires Config(s) && Enabled(s, Wake(i)) && Fed(s, f) && f == s.tasks[i].filter && TaskOk(s, i)
    ensures Left(Apply(s, Wake(i))) < Left(s)
  {
    WakeBaseOk(s, i, f);
    SpawnedAccount(s, i, f);
    OnwardLowers(WakeBase(s, i, f), i, f, s.tasks[i].info);
  }

  lemma SpawnedAccount(s: State, i: nat, f: nat)
    requires Enabled(s, Wake(i)) && f == s.tasks[i].filter && TaskOk(s, i)
    ensures Left(WakeBase(s, i, f)) < Left(s) && TaskRank(|s.filters|)(s.tasks[i]) == At(|s.filters|, f) + 1
  {
    var s1, x := WakeBase(s, i, f), s.tasks[i].phase.wakee.item;
    HomesAccount(s, s1, x);
    SumAppend(s.tasks, Task(Ready, f, s.tasks[i].phase.wakee), TaskRank(|s.filters|));
  }

  lemma ReleaseLowers(s: State, i: nat)
    requires Struct(s) && Enabled(s, Release(i))
    ensures Left(Apply(s, Release(i))) < Left(s)
  {
    var f := s.tasks[i].filter;
    AtSerial(s, i);
    if s.stages[f].buffer.low + 1 in s.stages[f].buffer.deferred {
      WakesLowers(s, i, f);
    } else {
      IdleLowers(s, i, f);
    }
  }

  /** Every step but one of the input brings the end closer. */
  lemma StepLowers(s: State, a: Step)
    requires Struct(s) && Enabled(s, a) && !FromInput(a)
    ensures Left(Apply(s, a)) < Left(s)
  {
    var i := a.i;
    assert TaskOk(s, i);
    match a
    case Claim(_) => ClaimLowers(s, i);
    case SpawnNext(_) => SpawnLowers(s, i);
    case Run(_) => FilterLowers(s, a);
    case Finish(_) => FilterLowers(s, a);
    case Return(_) => ReturnLowers(s, i);
    case PutNext(_) => PutLowers(s, i);
    case Release(_) => ReleaseLowers(s, i);
    case Wake(_) =>
      AtSerial(s, i);
      WakeLowers(s, i, s.tasks[i].filter);
    case _ => BareLowers(s, a);
  }

  // ---------------------------------------------------------------- runs

  /** s' follows s by a step that is not one of the input. */
  ghost predicate Continues(s: State, s': State) {
    exists a: Step :: !FromInput(a) && Enabled(s, a) && Apply(s, a) == s'
  }

  ghost predicate QuietAt(run: seq<State>, k: nat) { k + 1 < |run| && Continues(run[k], run[k + 1]) }

  ghost predicate Quiet(run: seq<State>, m: nat) {
    forall k :: m <= k < |run| - 1 ==> QuietAt(run, k)
  }

  /** The next step of a task if the input has ended. */
  function Onwards(p: Phase, i: nat): Step {
    if p == Reading then EndRead(i) else if p == ParReading then ParEnd(i) else NextStep(p, i)
  }

  lemma CanContinue(s: State, i: nat)
    requires Struct(s) && i < |s.tasks| && s.tasks[i].phase != Done
    ensures Enabled(s, Onwards(s.tasks[i].phase, i)) && !FromInput(Onwards(s.tasks[i].phase, i))
  {
    assert TaskOk(s, i);
  }

  lemma Extended(run: seq<State>, s': State)
    requires IsRun(run) && Next(run[|run| - 1], s')
    ensures IsRun(run + [s'])
  {
    var longer := run + [s'];
    forall i | 0 <= i < |longer| - 1
      ensures NextAt(longer, i)
    {
      assert i < |run| - 1 ==> NextAt(run, i);
    }
  }

  lemma OneMore(run: seq<State>) returns (s': State)
    requires IsRun(run) && !Finished(run[|run| - 1])
    ensures IsRun(run + [s']) && Continues(run[|run| - 1], s') && 0 <= Left(s') < Left(run[|run| - 1])
  {
    var s := run[|run| - 1];
    RunInv(run, |run| - 1);
    var i :| 0 <= i < |s.tasks| && s.tasks[i].phase != Done;
    var a := Onwards(s.tasks[i].phase, i);
    CanContinue(s, i);
    s' := Apply(s, a);
    StepLowers(s, a);
    assert Next(s, s');
    Extended(run, s');
    LeftInRun(run + [s'], |run|);
  }

  lemma LeftInRun(run: seq<State>, n: nat)
    requires IsRun(run) && n < |run|
    ensures Left(run[n]) >= 0
  {
    RunInv(run, n);
    LeftNonNegative(run[n]);
  }

  /** A run, one more state, and what follows that. */
  lemma Joined(run: seq<State>, s': State, rest: seq<State>)
    requires run != [] && Continues(run[|run| - 1], s') && Quiet(run + [s'] + rest, |run|) && IsRun(run + [s'] + rest)
    ensures IsRun(run + ([s'] + rest)) && Quiet(run + ([s'] + rest), |run| - 1)
    ensures run + ([s'] + rest) == run + [s'] + rest
  {
    var all := run + ([s'] + rest);
    assert all == run + [s'] + rest;
    forall k | |run| - 1 <= k < |all| - 1
      ensures QuietAt(all, k)
    {
      if k == |run| - 1 {
        assert all[k] == run[k] && all[k + 1] == s';
      }
    }
  }

  /**
   Every run can be carried on, without reading any more, to one in which no task is left; it takes at most Left steps,
   and there is no way to get stuck before.
   */
  lemma {:induction false} DrainedInTheEnd(run: seq<State>) returns (more: seq<State>)
    requires IsRun(run)
    ensures IsRun(run + more) && Quiet(run + more, |run| - 1) && |more| <= Left(run[|run| - 1])
    ensures Finished((run + more)[|run + more| - 1])
    decreases Left(run[|run| - 1])
  {
    var n := |run| - 1;
    LeftInRun(run, n);
    if Finished(run[n]) {
      more := [];
      assert run + more == run;
    } else {
      var s' := OneMore(run);
      assert (run + [s'])[n + 1] == s';
      var rest := DrainedInTheEnd(run + [s']);
      more := [s'] + rest;
      Joined(run, s', rest);
    }
  }

  /** A stretch of a run without input is no longer than the bound it starts with. */
  lemma {:induction false} BoundedStretch(run: seq<State>, m: nat, n: nat)
    requires IsRun(run) && m <= n < |run| && forall k :: m <= k < n ==> QuietAt(run, k)
    ensures n - m <= Left(run[m]) - Left(run[n]) <= Left(run[m])
    decreases n
  {
    RunInv(run, n);
    LeftNonNegative(run[n]);
    if m < n {
      BoundedStretch(run, m, n - 1);
      RunInv(run, n - 1);
      assert QuietAt(run, n - 1);
      var a: Step :| !FromInput(a) && Enabled(run[n - 1], a) && Apply(run[n - 1], a) == run[n];
      StepLowers(run[n - 1], a);
    }
  }

  // ---------------------------------------------------------------- the end of the input

  /** Tokens are lost only at the end of the input, and only serial filters behind the first defer items. */
  ghost predicate Tidy(s: State) {
    && (s.lost > 0 ==> s.ended)
    && forall f: nat :: f < |s.stages| && !Fed(s, f) ==> s.stages[f].buffer.deferred == map[]
  }

  /** What a step may do to the end of the input and to the buffer of filter f. */
  predicate TidyStep(s: State, s': State, f: nat) {
    && (s.ended ==> s'.ended) && (s'.lost > 0 ==> s.lost > 0 || s'.ended)
    && s'.filters == s.filters && |s'.stages| == |s.stages|
    && (f < |s.stages| && !Fed(s, f) ==> s'.stages[f].buffer.deferred == s.stages[f].buffer.deferred)
  }

  lemma OnwardFrame(s: State, i: nat, f: nat, info: Info)
    requires Sane(s) && i < |s.tasks|
    ensures var s' := Onward(s, i, f, info); s' == s.(tasks := s'.tasks, home := s'.home)
  {
  }

  lemma TidyPlain(s: State, a: Step, f: nat)
    requires Enabled(s, a)
    requires a.Begin? || a.StopInput? || a.EndRead? || a.ParEnd? || a.Recycle? || a.Return? || a.Read? || a.Run?
    ensures TidyStep(s, Apply(s, a), f)
  {
  }

  lemma TidyOnward(s: State, a: Step, f: nat)
    requires Enabled(s, a) && (a.Claim? || a.SpawnNext? || a.ParRead? || a.Finish?)
    ensures TidyStep(s, Apply(s, a), f)
  {
    var i, t := a.i, s.tasks[a.i];
    if a.Claim? {
      OnwardFrame(s.(tokens := s.tokens - 1), i, 0, t.info);
    } else if a.SpawnNext? {
      OnwardFrame(s.(tasks := s.tasks + [START]), i, 0, t.info);
    } else if a.ParRead? {
      OnwardFrame(s.(home := s.home + [Home(0, InTask(i))]), i, 0, Info(|s.home|, 0, false));
    } else {
      OnwardFrame(s, i, t.filter, t.info);
    }
  }

  lemma TidyRelease(s: State, i: nat, f: nat)
    requires Enabled(s, Release(i)) && PhaseOk(s, s.tasks[i])
    ensures TidyStep(s, Apply(s, Release(i)), f)
  {
  }

  lemma TidyWake(s: State, i: nat, f: nat)
    requires Enabled(s, Wake(i))
    ensures TidyStep(s, Apply(s, Wake(i)), f)
  {
  }

  lemma TidyPut(s: State, i: nat, f: nat)
    requires Enabled(s, PutNext(i)) && PhaseOk(s, s.tasks[i])
    ensures TidyStep(s, Apply(s, PutNext(i)), f)
  {
  }

  lemma TidyKept(s: State, a: Step)
    requires Enabled(s, a) && PhaseOk(s, s.tasks[a.i]) && Tidy(s)
    ensures Tidy(Apply(s, a))
  {
    var s' := Apply(s, a);
    forall f: nat
      ensures TidyStep(s, s', f)
    {
      if a.Claim? || a.SpawnNext? || a.ParRead? || a.Finish? {
        TidyOnward(s, a, f);
      } else if a.Release? {
        TidyRelease(s, a.i, f);
      } else if a.Wake? {
        TidyWake(s, a.i, f);
      } else if a.PutNext? {
        TidyPut(s, a.i, f);
      } else {
        TidyPlain(s, a, f);
      }
    }
    TidyFrom(s, s');
  }

  lemma TidyFrom(s: State, s': State)
    requires Tidy(s) && forall f: nat :: TidyStep(s, s', f)
    ensures Tidy(s')
  {
    assert TidyStep(s, s', 0);
    forall f: nat | f < |s'.stages| && !Fed(s', f)
      ensures s'.stages[f].buffer.deferred == map[]
    {
      assert TidyStep(s, s', f);
    }
  }

  lemma NextTidy(s: State, s': State)
    requires Tasks(s) && Next(s, s') && Tidy(s)
    ensures Tidy(s')
  {
    var a :| Enabled(s, a) && Apply(s, a) == s';
    assert TaskOk(s, a.i);
    TidyKept(s, a);
  }

  lemma RunTasks(run: seq<State>, n: nat)
    requires IsRun(run) && n < |run|
    ensures Tasks(run[n])
  {
    RunInv(run, n);
  }

  lemma {:induction false} RunTidy(run: seq<State>, n: nat)
    requires IsRun(run) && n < |run|
    ensures Tidy(run[n])
    decreases n
  {
    if n > 0 {
      RunTidy(run, n - 1);
      RunTasks(run, n - 1);
      assert NextAt(run, n - 1);
      NextTidy(run[n - 1], run[n]);
    }
  }

  /** The pipeline does not finish before the end of its input. */
  lemma FinishesAtEnd(run: seq<State>, n: nat)
    requires IsRun(run) && n < |run| && Finished(run[n])
    ensures run[n].ended
  {
    var s := run[n];
    RunInv(run, n);
    RunTidy(run, n);
    NoneWaits(s);
    assert Counts(s);
    SumZero(s.tasks, Load);
    SumZero(s.tasks, Starter);
  }

  lemma NoneWaits(s: State)
    requires Inv(s) && Finished(s) && Tidy(s)
    ensures Sum(s.stages, StageLoad) == 0
  {
    forall st | st in s.stages
      ensures StageLoad(st) == 0
    {
      var f :| 0 <= f < |s.stages| && s.stages[f] == st;
      if Fed(s, f) {
        NothingDeferred(s, f);
      }
    }
    SumZero(s.stages, StageLoad);
  }

  // ---------------------------------------------------------------- nothing is read after the end

  /** A task that is on its way to a parallel first filter. */
  function IsReader(t: Task): int { if t.phase in {ParClaiming, ParSpawning, ParReading} then 1 else 0 }

  /** Task i changed and possibly one task was added. */
  lemma ReadersAccount(s: State, s': State, i: nat)
    requires i < |s.tasks| <= |s'.tasks| <= |s.tasks| + 1 && s'.tasks[..|s.tasks|] == s.tasks[i := s'.tasks[i]]
    ensures Sum(s'.tasks, IsReader) - Sum(s.tasks, IsReader) == IsReader(s'.tasks[i]) - IsReader(s.tasks[i])
      + (if |s'.tasks| > |s.tasks| then IsReader(s'.tasks[|s.tasks|]) else 0)
  {
    var t := s.tasks[i := s'.tasks[i]];
    SumUpdate(s.tasks, i, s'.tasks[i], IsReader);
    if |s'.tasks| > |s.tasks| {
      assert s'.tasks == t + [s'.tasks[|s.tasks|]];
      SumAppend(t, s'.tasks[|s.tasks|], IsReader);
    } else {
      assert s'.tasks == t;
    }
  }

  /** What a step of task i does to the tasks, and how many items it reads. */
  predicate ReaderStep(s: State, s': State, i: nat) {
    && i < |s.tasks| <= |s'.tasks| <= |s.tasks| + 1 && s'.tasks[..|s.tasks|] == s.tasks[i := s'.tasks[i]]
    && |s.home| <= |s'.home| && s'.filters == s.filters && (s.ended ==> s'.ended)
    && |s'.home| - |s.home| + IsReader(s'.tasks[i]) <= IsReader(s.tasks[i])
    && (|s'.tasks| > |s.tasks| ==> IsReader(s'.tasks[|s.tasks|]) == 0)
  }

  lemma OnwardReader(s: State, i: nat, f: nat, info: Info)
    requires Sane(s) && i < |s.tasks|
    ensures var s' := Onward(s, i, f, info);
      && s' == s.(tasks := s.tasks[i := s'.tasks[i]], home := s'.home)
      && |s'.home| == |s.home| && IsReader(s'.tasks[i]) == 0
  {
  }

  lemma PlainReader(s: State, a: Step)
    requires Enabled(s, a) && s.ended && !Serial(s.filters[0])
    requires a.Begin? || a.StopInput? || a.EndRead? || a.ParEnd? || a.Recycle? || a.Return? || a.Run?
    ensures ReaderStep(s, Apply(s, a), a.i)
  {
  }

  lemma InputReader(s: State, a: Step)
    requires Enabled(s, a) && (a.Claim? || a.SpawnNext? || a.ParRead? || a.Finish?)
    ensures ReaderStep(s, Apply(s, a), a.i)
  {
    var i, t := a.i, s.tasks[a.i];
    if a.Claim? {
      OnwardReader(s.(tokens := s.tokens - 1), i, 0, t.info);
    } else if a.SpawnNext? {
      OnwardReader(s.(tasks := s.tasks + [START]), i, 0, t.info);
    } else if a.ParRead? {
      OnwardReader(s.(home := s.home + [Home(0, InTask(i))]), i, 0, Info(|s.home|, 0, false));
    } else {
      OnwardReader(s, i, t.filter, t.info);
    }
  }

  lemma ReleaseReader(s: State, i: nat)
    requires Enabled(s, Release(i))
    ensures ReaderStep(s, Apply(s, Release(i)), i)
  {
  }

  lemma WakeReader(s: State, i: nat)
    requires Enabled(s, Wake(i))
    ensures ReaderStep(s, Apply(s, Wake(i)), i)
  {
  }

  lemma PutReader(s: State, i: nat)
    requires Enabled(s, PutNext(i))
    ensures ReaderStep(s, Apply(s, PutNext(i)), i)
  {
  }

  lemma ReadersFall(s: State, s': State)
    requires Tasks(s) && Next(s, s') && s.ended && s.filters != [] && !Serial(s.filters[0])
    ensures |s'.home| + Sum(s'.tasks, IsReader) <= |s.home| + Sum(s.tasks, IsReader)
    ensures s'.ended && s'.filters == s.filters
  {
    var a :| Enabled(s, a) && Apply(s, a) == s';
    assert TaskOk(s, a.i);
    match a {
      case Release(i) => ReleaseReader(s, i);
      case Wake(i) => WakeReader(s, i);
      case PutNext(i) => PutReader(s, i);
      case Claim(_) => InputReader(s, a);
      case SpawnNext(_) => InputReader(s, a);
      case ParRead(_) => InputReader(s, a);
      case Finish(_) => InputReader(s, a);
      case Read(_) => assert false;
      case _ => PlainReader(s, a);
    }
    ReadersAccount(s, s', a.i);
  }

  /** Once the end of the input has been seen, a parallel first filter gives no more items than tasks are at it. */
  lemma {:induction false} NoLateReads(run: seq<State>, m: nat, n: nat)
    requires IsRun(run) && m <= n < |run| && run[m].ended && run[m].filters != [] && run[m].filters[0] == Parallel
    ensures |run[n].home| + Sum(run[n].tasks, IsReader) <= |run[m].home| + Sum(run[m].tasks, IsReader)
    ensures |run[n].home| <= |run[m].home| + Sum(run[m].tasks, IsReader)
    ensures run[n].ended && run[n].filters == run[m].filters
    decreases n
  {
    SumNonNegative(run[n].tasks, IsReader);
    if m < n {
      NoLateReads(run, m, n - 1);
      ReadersAt(run, n - 1);
    }
  }

  lemma ReadersAt(run: seq<State>, l: nat)
    requires IsRun(run) && l + 1 < |run| && run[l].ended && run[l].filters != [] && run[l].filters[0] == Parallel
    ensures |run[l + 1].home| + Sum(run[l + 1].tasks, IsReader) <= |run[l].home| + Sum(run[l].tasks, IsReader)
    ensures run[l + 1].ended && run[l + 1].filters == run[l].filters
  {
    RunTasks(run, l);
    assert NextAt(run, l);
    ReadersFall(run[l], run[l + 1]);
  }
}
