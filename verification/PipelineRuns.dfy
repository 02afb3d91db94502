/** What holds in every state of every run of the pipeline. */
module PipelineRuns {
  import opened Wrappers
  import opened InputBuffer
  import opened Sums
  import opened Pipeline
  import opened PipelineInv
  import opened PipelineProof

  // ---------------------------------------------------------------- counts

  /** Sums after task i changed and possibly one task was added. */
  lemma TaskSums(s: State, s': State, i: nat)
    requires i < |s.tasks| <= |s'.tasks| <= |s.tasks| + 1
    requires s'.tasks[..|s.tasks|] == s.tasks[i := s'.tasks[i]]
    ensures Sum(s'.tasks, Load) - Sum(s.tasks, Load) ==
      Load(s'.tasks[i]) - Load(s.tasks[i]) + (if |s'.tasks| > |s.tasks| then Load(s'.tasks[|s.tasks|]) else 0)
    ensures Sum(s'.tasks, Starter) - Sum(s.tasks, Starter) ==
      Starter(s'.tasks[i]) - Starter(s.tasks[i]) + (if |s'.tasks| > |s.tasks| then Starter(s'.tasks[|s.tasks|]) else 0)
  {
    var t := s.tasks[i := s'.tasks[i]];
    SumUpdate(s.tasks, i, s'.tasks[i], Load);
    SumUpdate(s.tasks, i, s'.tasks[i], Starter);
    if |s'.tasks| > |s.tasks| {
      assert s'.tasks == t + [s'.tasks[|s.tasks|]];
      SumAppend(t, s'.tasks[|s.tasks|], Load);
      SumAppend(t, s'.tasks[|s.tasks|], Starter);
    } else {
      assert s'.tasks == t;
    }
  }

  lemma StageSums(s: State, s': State, f: nat)
    requires f < |s.stages| == |s'.stages| && s'.stages == s.stages[f := s'.stages[f]]
    ensures Sum(s'.stages, StageLoad) - Sum(s.stages, StageLoad) == StageLoad(s'.stages[f]) - StageLoad(s.stages[f])
  {
    SumUpdate(s.stages, f, s'.stages[f], StageLoad);
  }

  /** A task not yet past its decrement means a token is there to take. */
  lemma TokenThere(s: State, i: nat)
    requires Counts(s) && i < |s.tasks| && Starter(s.tasks[i]) == 1
    ensures s.tokens > 0 && Sum(s.tasks, Starter) == 1
  {
    SumAtLeast(s.tasks, i, Starter);
  }

  lemma OnwardCounts(s: State, i: nat, f: nat, info: Info)
    requires Sane(s) && i < |s.tasks|
    ensures var s' := Onward(s, i, f, info);
            && s'.tasks == s.tasks[i := s'.tasks[i]] && Load(s'.tasks[i]) == 1 && Starter(s'.tasks[i]) == 0
            && s' == s.(tasks := s'.tasks, home := s'.home)
  {
  }

  /** One task changed; the rest of the ledger is as before. */
  lemma CountsFrom(s: State, s': State, i: nat)
    requires Counts(s) && i < |s.tasks| == |s'.tasks| && s'.maxToken == s.maxToken
    requires s'.tasks == s.tasks[i := s'.tasks[i]] && s'.stages == s.stages
    requires s'.tokens + Load(s'.tasks[i]) + s'.lost == s.tokens + Load(s.tasks[i]) + s.lost && s'.tokens >= 0
    requires var starters := Sum(s.tasks, Starter) - Starter(s.tasks[i]) + Starter(s'.tasks[i]);
             && starters <= 1
             && (s'.tokens == 0 ==> starters == 0)
             && (!s'.ended && s'.tokens > 0 ==> starters == 1)
    ensures Counts(s')
  {
    TaskSums(s, s', i);
  }

  /** A task that has not done its decrement changes phase or ends. */
  lemma StarterCounts(s: State, a: Step)
    requires Counts(s) && Enabled(s, a) && (a.Begin? || a.EndRead? || a.Recycle?)
    ensures Counts(Apply(s, a))
  {
    var s' := Apply(s, a);
    TokenThere(s, a.i);
    CountsFrom(s, s', a.i);
  }

  /** Tokens come back, or are lost at the end of the input. */
  lemma EndCounts(s: State, a: Step)
    requires Counts(s) && Enabled(s, a) && (a.ParEnd? || a.Return?)
    ensures Counts(Apply(s, a))
  {
    CountsFrom(s, Apply(s, a), a.i);
  }

  lemma ClaimCounts(s: State, i: nat)
    requires Counts(s) && Enabled(s, Claim(i))
    ensures Counts(Apply(s, Claim(i)))
  {
    var s' := Apply(s, Claim(i));
    TokenThere(s, i);
    OnwardCounts(s.(tokens := s.tokens - 1), i, 0, s.tasks[i].info);
    CountsFrom(s, s', i);
  }

  lemma SpawnCounts(s: State, i: nat)
    requires Counts(s) && Enabled(s, SpawnNext(i))
    ensures Counts(Apply(s, SpawnNext(i)))
  {
    TokenThere(s, i);
    OnwardCounts(s.(tasks := s.tasks + [START]), i, 0, s.tasks[i].info);
    TaskSums(s, Apply(s, SpawnNext(i)), i);
  }

  lemma ParReadCounts(s: State, i: nat)
    requires Counts(s) && Enabled(s, ParRead(i))
    ensures Counts(Apply(s, ParRead(i)))
  {
    OnwardCounts(s.(home := s.home + [Home(0, InTask(i))]), i, 0, Info(|s.home|, 0, false));
    TaskSums(s, Apply(s, ParRead(i)), i);
  }

  lemma FinishCounts(s: State, i: nat)
    requires Counts(s) && Enabled(s, Finish(i))
    ensures Counts(Apply(s, Finish(i)))
  {
    FinishMoves(s, Apply(s, Finish(i)), i);
    SameLoad(s, Apply(s, Finish(i)), i);
  }

  lemma FinishMoves(s: State, s': State, i: nat)
    requires Enabled(s, Finish(i)) && s' == Apply(s, Finish(i))
    ensures |s'.tasks| == |s.tasks| && s'.tasks == s.tasks[i := s'.tasks[i]]
    ensures s' == s.(tasks := s'.tasks, home := s'.home)
    ensures Load(s'.tasks[i]) == Load(s.tasks[i]) && Starter(s'.tasks[i]) == Starter(s.tasks[i])
  {
    OnwardCounts(s, i, s.tasks[i].filter, s.tasks[i].info);
  }

  /** One task changed and weighs what it did. */
  lemma SameLoad(s: State, s': State, i: nat)
    requires Counts(s) && i < |s.tasks| == |s'.tasks| && s'.tasks == s.tasks[i := s'.tasks[i]]
    requires s' == s.(tasks := s'.tasks, home := s'.home)
    requires Load(s'.tasks[i]) == Load(s.tasks[i]) && Starter(s'.tasks[i]) == Starter(s.tasks[i])
    ensures Counts(s')
  {
    SumUpdate(s.tasks, i, s'.tasks[i], Load);
    SumUpdate(s.tasks, i, s'.tasks[i], Starter);
  }

  /** Steps that write a log. */
  lemma LogCounts(s: State, a: Step)
    requires Counts(s) && Enabled(s, a) && (a.Run? || a.Read?)
    ensures Counts(Apply(s, a))
  {
    var f := if a.Read? then 0 else s.tasks[a.i].filter;
    LogMoves(s, Apply(s, a), a, f);
    LoadMoves(s, Apply(s, a), a.i, f);
  }

  lemma LogMoves(s: State, s': State, a: Step, f: nat)
    requires Enabled(s, a) && (a.Run? || a.Read?) && s' == Apply(s, a)
    requires f == (if a.Read? then 0 else s.tasks[a.i].filter)
    ensures |s'.tasks| == |s.tasks| && s'.tasks == s.tasks[a.i := s'.tasks[a.i]]
    ensures f < |s.stages| == |s'.stages| && s'.stages == s.stages[f := s'.stages[f]]
    ensures s'.tokens == s.tokens && s'.ended == s.ended && s'.lost == s.lost && s'.maxToken == s.maxToken
    ensures Starter(s'.tasks[a.i]) == Starter(s.tasks[a.i])
    ensures Load(s'.tasks[a.i]) == Load(s.tasks[a.i]) && StageLoad(s'.stages[f]) == StageLoad(s.stages[f])
  {
  }

  lemma WakeCounts(s: State, i: nat)
    requires Counts(s) && Enabled(s, Wake(i))
    ensures Counts(Apply(s, Wake(i)))
  {
    var s', f, t := Apply(s, Wake(i)), s.tasks[i].filter, s.tasks[i];
    var w, j, st := t.phase.wakee, |s.tasks|, s.stages[f];
    var s1 := PutAt(SetStage(s, f, st.(holder := Some(j))).(tasks := s.tasks + [Task(Ready, f, w)]), w.item, InTask(j));
    OnwardCounts(s1, i, f, t.info);
    TaskSums(s, s', i);
    StageSums(s, s', f);
  }

  lemma ReleaseCounts(s: State, i: nat)
    requires Counts(s) && Enabled(s, Release(i))
    ensures Counts(Apply(s, Release(i)))
  {
    var s', f := Apply(s, Release(i)), s.tasks[i].filter;
    ReleaseLoads(s, s', i, f);
    LoadMoves(s, s', i, f);
  }

  /** A task's token moves between the task and the buffer of filter f. */
  lemma LoadMoves(s: State, s': State, i: nat, f: nat)
    requires Counts(s) && i < |s.tasks| == |s'.tasks| && f < |s.stages| == |s'.stages|
    requires s'.tasks == s.tasks[i := s'.tasks[i]] && s'.stages == s.stages[f := s'.stages[f]]
    requires s'.tokens == s.tokens && s'.ended == s.ended && s'.lost == s.lost && s'.maxToken == s.maxToken
    requires Starter(s'.tasks[i]) == Starter(s.tasks[i])
    requires Load(s'.tasks[i]) + StageLoad(s'.stages[f]) == Load(s.tasks[i]) + StageLoad(s.stages[f])
    ensures Counts(s')
  {
    SumUpdate(s.tasks, i, s'.tasks[i], Load);
    SumUpdate(s.tasks, i, s'.tasks[i], Starter);
    SumUpdate(s.stages, f, s'.stages[f], StageLoad);
  }

  lemma ReleaseLoads(s: State, s': State, i: nat, f: nat)
    requires Enabled(s, Release(i)) && s' == Apply(s, Release(i)) && f == s.tasks[i].filter
    ensures |s'.tasks| == |s.tasks| && s'.tasks == s.tasks[i := s'.tasks[i]]
    ensures |s'.stages| == |s.stages| && s'.stages == s.stages[f := s'.stages[f]]
    ensures s'.tokens == s.tokens && s'.ended == s.ended && s'.lost == s.lost && s'.maxToken == s.maxToken
    ensures Starter(s'.tasks[i]) == 0
    ensures Load(s'.tasks[i]) + StageLoad(s'.stages[f]) == 1 + StageLoad(s.stages[f])
  {
    var b := s.stages[f].buffer;
    OneFewer(b.deferred, b.low + 1);
    if b.low + 1 in b.deferred {
      WakingLoads(s, s', i, f);
    } else {
      IdlingLoads(s, s', i, f);
    }
  }

  /** The token of the item taken from the buffer goes to the task that wakes it. */
  lemma WakingLoads(s: State, s': State, i: nat, f: nat)
    requires Enabled(s, Release(i)) && s' == Apply(s, Release(i)) && f == s.tasks[i].filter
    requires s.stages[f].buffer.low + 1 in s.stages[f].buffer.deferred
    ensures s'.tasks == s.tasks[i := s.tasks[i].(phase := s'.tasks[i].phase)] && s'.tasks[i].phase.Waking?
    ensures |s'.stages| == |s.stages| && s'.stages == s.stages[f := s'.stages[f]]
    ensures s'.stages[f].buffer.deferred == s.stages[f].buffer.deferred - {s.stages[f].buffer.low + 1}
    ensures s'.tokens == s.tokens && s'.ended == s.ended && s'.lost == s.lost && s'.maxToken == s.maxToken
  {
  }

  lemma IdlingLoads(s: State, s': State, i: nat, f: nat)
    requires Enabled(s, Release(i)) && s' == Apply(s, Release(i)) && f == s.tasks[i].filter
    requires s.stages[f].buffer.low + 1 !in s.stages[f].buffer.deferred
    ensures |s'.tasks| == |s.tasks| && s'.tasks == s.tasks[i := s'.tasks[i]]
    ensures Load(s'.tasks[i]) == 1 && Starter(s'.tasks[i]) == 0
    ensures |s'.stages| == |s.stages| && s'.stages == s.stages[f := s'.stages[f]]
    ensures s'.stages[f].buffer.deferred == s.stages[f].buffer.deferred - {s.stages[f].buffer.low + 1}
    ensures s'.tokens == s.tokens && s'.ended == s.ended && s'.lost == s.lost && s'.maxToken == s.maxToken
  {
    var s1 := IdleBase(s, i, f);
    assert s' == Onward(s1, i, f, s.tasks[i].info);
    OnwardCounts(s1, i, f, s.tasks[i].info);
  }

  lemma OneFewer(d: map<nat, Info>, t: nat)
    ensures |d - {t}| == if t in d then |d| - 1 else |d|
  {
    if t in d {
      assert (d - {t}).Keys == d.Keys - {t};
    } else {
      assert d - {t} == d;
    }
  }

  lemma PutCounts(s: State, i: nat)
    requires Counts(s) && Enabled(s, PutNext(i))
    requires var f := s.tasks[i].filter;
             TryPut(s.stages[f].buffer, s.tasks[i].info).token !in s.stages[f].buffer.deferred
    ensures Counts(Apply(s, PutNext(i)))
  {
    var s', f := Apply(s, PutNext(i)), s.tasks[i].filter;
    PutLoads(s, s', i, f);
    LoadMoves(s, s', i, f);
  }

  lemma PutLoads(s: State, s': State, i: nat, f: nat)
    requires Enabled(s, PutNext(i)) && s' == Apply(s, PutNext(i)) && f == s.tasks[i].filter
    requires TryPut(s.stages[f].buffer, s.tasks[i].info).token !in s.stages[f].buffer.deferred
    ensures |s'.tasks| == |s.tasks| && s'.tasks == s.tasks[i := s'.tasks[i]]
    ensures |s'.stages| == |s.stages| && s'.stages == s.stages[f := s'.stages[f]]
    ensures s'.tokens == s.tokens && s'.ended == s.ended && s'.lost == s.lost && s'.maxToken == s.maxToken
    ensures Starter(s'.tasks[i]) == 0
    ensures Load(s'.tasks[i]) + StageLoad(s'.stages[f]) == 1 + StageLoad(s.stages[f])
  {
    var d, p := s.stages[f].buffer.deferred, TryPut(s.stages[f].buffer, s.tasks[i].info);
    if p.wait {
      assert d[p.token := p.info].Keys == d.Keys + {p.token};
      assert |d[p.token := p.info]| == |d| + 1;
    }
  }

  // ---------------------------------------------------------------- runs

  lemma StructKept(s: State, a: Step)
    requires Struct(s) && Enabled(s, a)
    ensures Struct(Apply(s, a))
  {
    var i := a.i;
    match a
    case Read(_) => ReadKeeps(s, i);
    case Claim(_) => if s.tasks[i].phase == Claiming { ClaimKeeps(s, i); } else { BareSteps(s, a); }
    case SpawnNext(_) => if s.tasks[i].phase == Spawning { SpawnNextKeeps(s, i); } else { BareSteps(s, a); }
    case ParRead(_) => ParReadKeeps(s, i);
    case Run(_) => RunKeeps(s, i);
    case Finish(_) => FinishKeeps(s, i);
    case Release(_) => ReleaseKeeps(s, i);
    case Wake(_) => WakeKeeps(s, i);
    case PutNext(_) => PutKeeps(s, i);
    case Return(_) => ReturnKeeps(s, i);
    case _ => BareSteps(s, a);
  }

  lemma StopCounts(s: State, i: nat)
    requires Counts(s) && Enabled(s, StopInput(i))
    ensures Counts(Apply(s, StopInput(i)))
  {
  }

  lemma PutNextCounts(s: State, i: nat)
    requires Struct(s) && Counts(s) && Enabled(s, PutNext(i))
    ensures Counts(Apply(s, PutNext(i)))
  {
    PutToken(s, i, s.tasks[i].filter);
    PutCounts(s, i);
  }

  lemma CountsKept(s: State, a: Step)
    requires Struct(s) && Counts(s) && Enabled(s, a)
    ensures Counts(Apply(s, a))
  {
    var i := a.i;
    match a
    case StopInput(_) => StopCounts(s, i);
    case Read(_) => LogCounts(s, a);
    case Claim(_) => ClaimCounts(s, i);
    case SpawnNext(_) => SpawnCounts(s, i);
    case ParRead(_) => ParReadCounts(s, i);
    case Run(_) => LogCounts(s, a);
    case Finish(_) => FinishCounts(s, i);
    case Release(_) => ReleaseCounts(s, i);
    case Wake(_) => WakeCounts(s, i);
    case PutNext(_) => PutNextCounts(s, i);
    case ParEnd(_) => EndCounts(s, a);
    case Return(_) => EndCounts(s, a);
    case _ => StarterCounts(s, a);
  }

  lemma InitInv(s: State)
    requires Init(s)
    ensures Inv(s)
  {
    InitCounts(s);
    assert Config(s) && OrderOk(s) && FirstOk(s) && Homes(s);
    assert Buffers(s) && Holders(s);
    assert TaskOk(s, 0);
  }

  lemma InitCounts(s: State)
    requires Init(s)
    ensures Counts(s)
  {
    SumZero(s.stages, StageLoad);
    assert s.tasks == [] + [START];
    SumAppend([], START, Load);
    SumAppend([], START, Starter);
  }

  ghost predicate Next(s: State, s': State) {
    exists a: Step :: Enabled(s, a) && Apply(s, a) == s'
  }

  /** A run interleaves the steps of all stage tasks in any order. */
  ghost predicate IsRun(run: seq<State>) {
    && run != []
    && Init(run[0])
    && forall i :: 0 <= i < |run| - 1 ==> NextAt(run, i)
  }

  ghost predicate NextAt(run: seq<State>, i: nat) { i + 1 < |run| && Next(run[i], run[i + 1]) }

  lemma {:induction false} RunInv(run: seq<State>, n: nat)
    requires IsRun(run) && n < |run|
    ensures Inv(run[n])
    decreases n
  {
    if n == 0 {
      InitInv(run[0]);
    } else {
      RunInv(run, n - 1);
      assert NextAt(run, n - 1);
      var a :| Enabled(run[n - 1], a) && Apply(run[n - 1], a) == run[n];
      StructKept(run[n - 1], a);
      CountsKept(run[n - 1], a);
    }
  }

  // ---------------------------------------------------------------- theorems

  /** A serial filter is executed by at most one task at a time. */
  lemma SerialExclusion(run: seq<State>, n: nat, i: nat, j: nat)
    requires IsRun(run) && n < |run| && i < j < |run[n].tasks|
    ensures var s := run[n];
            && !(s.tasks[i].phase == Reading && s.tasks[j].phase == Reading)
            && (s.tasks[i].phase == s.tasks[j].phase == Running ==>
                 s.tasks[i].filter == s.tasks[j].filter < |s.filters| ==> s.filters[s.tasks[i].filter] == Parallel)
  {
    var s := run[n];
    RunInv(run, n);
    if s.tasks[i].phase == Reading && s.tasks[j].phase == Reading {
      SumAtLeastTwo(s.tasks, i, j, Starter);
    }
    assert TaskOk(s, i) && TaskOk(s, j);
  }

  /** What a serial filter fed through its buffer has run: tokens 0, 1, 2, ... each once, and no item twice. */
  lemma TokensInSequence(run: seq<State>, n: nat, f: nat)
    requires IsRun(run) && n < |run| && Fed(run[n], f)
    ensures var st := run[n].stages[f];
            && st.buffer.low <= |st.log| <= st.buffer.low + 1
            && (forall k :: 0 <= k < |st.log| ==> k in st.seen && st.log[k] == st.seen[k])
            && (forall k, l :: 0 <= k < l < |st.log| ==> st.log[k] != st.log[l])
  {
    RunInv(run, n);
    assert HolderOk(run[n], f) && BufferOk(run[n], f);
  }

  /** The items filter f has run, in order. */
  function LogOf(s: State, f: nat): seq<nat> { if f < |s.stages| then s.stages[f].log else [] }

  predicate Ordered(s: State, f: nat) { f < |s.filters| && s.filters[f] == InOrder }

  /** All ordered filters see the items in one order. */
  lemma OneOrder(run: seq<State>, n: nat, f: nat, g: nat)
    requires IsRun(run) && n < |run| && Ordered(run[n], f) && Ordered(run[n], g)
    requires |LogOf(run[n], f)| <= |LogOf(run[n], g)|
    ensures LogOf(run[n], f) <= LogOf(run[n], g) <= run[n].order
  {
    RunInv(run, n);
    LogInOrder(run[n], f);
    LogInOrder(run[n], g);
  }

  lemma LogInOrder(s: State, f: nat)
    requires Inv(s) && Ordered(s, f)
    ensures LogOf(s, f) <= s.order
  {
    if f > 0 {
      assert Fed(s, f);
      assert HolderOk(s, f) && BufferOk(s, f) && s.stages[f].buffer.ordered;
      var log := s.stages[f].log;
      if log != [] {
        LoggedAt(s, f, |log| - 1);
      }
      forall k | 0 <= k < |log|
        ensures log[k] == s.order[k]
      {
        LoggedAt(s, f, k);
      }
    }
  }

  lemma LoggedAt(s: State, f: nat, k: nat)
    requires f < |s.stages| && HolderOk(s, f) && InOrderOk(s, f) && s.stages[f].buffer.ordered && k < |s.stages[f].log|
    ensures k < |s.order| && s.stages[f].log[k] == s.order[k]
  {
    assert k in s.stages[f].seen && s.stages[f].log[k] == s.stages[f].seen[k];
  }

  /**
   An item that has arrived with the lowest token is never left waiting: some task runs it or is about to spawn its
   task.
   */
  lemma LowTokenIsRunning(run: seq<State>, n: nat, f: nat)
    requires IsRun(run) && n < |run| && Fed(run[n], f) && run[n].stages[f].buffer.low in run[n].stages[f].seen
    ensures var s, st := run[n], run[n].stages[f];
            exists i :: 0 <= i < |s.tasks| && Holds(s.tasks[i], f) && HeldItem(s.tasks[i]) == st.seen[st.buffer.low]
  {
    RunInv(run, n);
    assert HolderOk(run[n], f);
  }

  function Items(t: Task): int {
    (if Carries(t) then 1 else 0) + (if t.phase.Waking? then 1 else 0)
  }

  function LoadOrStart(t: Task): int { Load(t) + Starter(t) }

  /** The input token counter never underflows and bounds the items carried by tasks or deferred in buffers. */
  lemma TokenLimit(run: seq<State>, n: nat)
    requires IsRun(run) && n < |run|
    ensures var s := run[n];
            && 0 <= s.tokens <= s.maxToken
            && Sum(s.tasks, Items) + Sum(s.stages, StageLoad) <= s.maxToken
            && Sum(s.tasks, Starter) <= 1
            && (!s.ended ==> (Sum(s.tasks, Starter) == 1 <==> s.tokens > 0))
            && (forall i :: 0 <= i < |s.tasks| && (s.tasks[i].phase == Claiming || s.tasks[i].phase == ParClaiming) ==>
              s.tokens > 0)
  {
    RunInv(run, n);
    var s := run[n];
    SumNonNegative(s.tasks, Load);
    SumNonNegative(s.tasks, Starter);
    SumNonNegative(s.stages, StageLoad);
    SumBelow(s.tasks, Items, LoadOrStart);
    SumOfBoth(s.tasks, Load, Starter, LoadOrStart);
    forall i | 0 <= i < |s.tasks| && (s.tasks[i].phase == Claiming || s.tasks[i].phase == ParClaiming)
      ensures s.tokens > 0
    {
      TokenThere(s, i);
    }
  }

  ghost predicate Finished(s: State) {
    forall i :: 0 <= i < |s.tasks| ==> s.tasks[i].phase == Done
  }

  /** When no stage task is left, no item is stuck in a buffer. */
  lemma {:induction false} NothingDeferred(s: State, f: nat)
    requires Inv(s) && Finished(s) && Fed(s, f)
    ensures s.stages[f].buffer.deferred == map[]
    decreases f
  {
    var st := s.stages[f];
    assert BufferOk(s, f) && HolderOk(s, f);
    if t :| t in st.buffer.deferred {
      var low := st.buffer.low;
      assert low !in st.seen;
      assert t in st.seen;
      assert st.buffer.ordered;
      var x := s.order[low];
      assert HomeOk(s, x);
      assert s.home[x].pos < f;
      var g := s.home[x].pos;
      assert s.home[x].place.Deferred?;
      StuckEarlier(s, x, g);
      NothingDeferred(s, g);
    }
  }

  lemma StuckEarlier(s: State, x: nat, g: nat)
    requires Inv(s) && x < |s.home| && s.home[x].place.Deferred? && g == s.home[x].pos
    ensures Fed(s, g) && s.stages[g].buffer.deferred != map[]
  {
    assert HomeOk(s, x);
  }

  /** With no task left, every item is through the pipe. */
  lemma AllOut(s: State, x: nat)
    requires Inv(s) && Finished(s) && x < |s.home|
    ensures s.home[x] == Home(|s.filters| - 1, Out)
  {
    assert HomeOk(s, x);
    if s.home[x].place.Deferred? {
      StuckEarlier(s, x, s.home[x].pos);
      NothingDeferred(s, s.home[x].pos);
    }
  }

  lemma AllLogged(s: State, f: nat, x: nat)
    requires Inv(s) && Finished(s) && Fed(s, f) && x < |s.home|
    ensures x in s.stages[f].index && s.stages[f].index[x] < |s.stages[f].log|
    ensures s.stages[f].log[s.stages[f].index[x]] == x
  {
    AllOut(s, x);
    NothingDeferred(s, f);
    assert BufferOk(s, f) && HolderOk(s, f);
  }

  /**
   A finished run has taken every item it read through every serial filter, and in one order through the ordered ones.
   */
  lemma FinishedRun(run: seq<State>, n: nat)
    requires IsRun(run) && n < |run| && Finished(run[n])
    ensures forall x :: 0 <= x < |run[n].home| ==> run[n].home[x].place == Out
    ensures forall f: nat, x :: Fed(run[n], f) && 0 <= x < |run[n].home| ==> x in LogOf(run[n], f)
    ensures forall f: nat :: Ordered(run[n], f) ==> LogOf(run[n], f) == run[n].order
  {
    var s := run[n];
    RunInv(run, n);
    forall x | 0 <= x < |s.home|
      ensures s.home[x].place == Out
    {
      AllOut(s, x);
    }
    forall f: nat, x | Fed(s, f) && 0 <= x < |s.home|
      ensures x in LogOf(s, f)
    {
      AllLogged(s, f, x);
    }
    forall f: nat | Ordered(s, f)
      ensures LogOf(s, f) == s.order
    {
      LogInOrder(s, f);
      if f > 0 && s.order != [] {
        LastLogged(s, f);
      }
    }
  }

  lemma LastLogged(s: State, f: nat)
    requires Inv(s) && Finished(s) && Ordered(s, f) && f > 0 && s.order != []
    ensures |LogOf(s, f)| >= |s.order|
  {
    var t := |s.order| - 1;
    assert Fed(s, f);
    assert BufferOk(s, f) && HolderOk(s, f) && s.stages[f].buffer.ordered;
    AllLogged(s, f, s.order[t]);
    assert s.order[s.stages[f].index[s.order[t]]] == s.order[t];
  }

  /** A task that is not done always has a next step. */
  lemma NeverStuck(run: seq<State>, n: nat, i: nat)
    requires IsRun(run) && n < |run| && i < |run[n].tasks| && run[n].tasks[i].phase != Done
    ensures exists a: Step :: a.i == i && Enabled(run[n], a)
  {
    var s := run[n];
    RunInv(run, n);
    assert TaskOk(s, i);
    assert Enabled(s, NextStep(s.tasks[i].phase, i));
  }

  function NextStep(p: Phase, i: nat): Step {
    match p
    case Start => Begin(i)
    case Reading => Read(i)
    case Claiming => Claim(i)
    case Spawning => SpawnNext(i)
    case ParClaiming => Claim(i)
    case ParSpawning => SpawnNext(i)
    case ParReading => ParRead(i)
    case Ready => Run(i)
    case Running => Finish(i)
    case Releasing => Release(i)
    case Waking(_) => Wake(i)
    case Moving => PutNext(i)
    case Returning => Return(i)
    case Recycling => Recycle(i)
    case Done => Recycle(i)
  }
}
