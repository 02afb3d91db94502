/** The way of every item through the pipeline: each filter runs on it once, in the order of the chain. */
module PipelineJourney {
  import opened Wrappers
  import opened InputBuffer
  import opened Sums
  import opened Pipeline
  import opened PipelineInv
  import opened PipelineProof
  import opened PipelineRuns

  predicate Takes(s: State, a: Step, s': State) { Enabled(s, a) && Apply(s, a) == s' }

  /** A run with the steps it takes. */
  ghost predicate IsTrail(run: seq<State>, steps: seq<Step>) {
    && |run| == |steps| + 1 && Init(run[0])
    && forall k :: 0 <= k < |steps| ==> StepAt(run, steps, k)
  }

  predicate StepAt(run: seq<State>, steps: seq<Step>, k: nat) {
    k < |steps| && k + 1 < |run| && Takes(run[k], steps[k], run[k + 1])
  }

  lemma TrailIsRun(run: seq<State>, steps: seq<Step>)
    requires IsTrail(run, steps)
    ensures IsRun(run)
  {
    forall i | 0 <= i < |run| - 1
      ensures NextAt(run, i)
    {
      assert StepAt(run, steps, i);
    }
  }

  lemma TrailInv(run: seq<State>, steps: seq<Step>, n: nat)
    requires IsTrail(run, steps) && n < |run|
    ensures Inv(run[n])
  {
    TrailIsRun(run, steps);
    RunInv(run, n);
  }

  lemma TrailStruct(run: seq<State>, steps: seq<Step>, n: nat)
    requires IsTrail(run, steps) && n < |run|
    ensures Struct(run[n])
  {
    TrailInv(run, steps, n);
  }

  // ---------------------------------------------------------------- what has been run

  /** The filter that the step runs on item x. */
  function Runs(s: State, a: Step, x: nat): Option<nat> {
    match a
    case Read(_) => if x == |s.home| then Some(0) else None
    case ParRead(_) => if x == |s.home| then Some(0) else None
    case Run(i) => if i < |s.tasks| && s.tasks[i].info.item == x then Some(s.tasks[i].filter) else None
    case _ => None
  }

  /** The filters that the first n steps ran on item x, in order. */
  function Trace(run: seq<State>, steps: seq<Step>, n: nat, x: nat): seq<nat>
    requires n <= |steps| <= |run|
  {
    if n == 0 then []
    else
      var before, r := Trace(run, steps, n - 1, x), Runs(run[n - 1], steps[n - 1], x);
      if r.Some? then before + [r.value] else before
  }

  function UpTo(n: nat): seq<nat> { seq(n, k => k) }

  // ---------------------------------------------------------------- how far an item is

  /** The number of filters run on the item a task carries. */
  function Passed(t: Task): nat {
    match t.phase
    case Claiming => 1
    case Spawning => 1
    case Ready => t.filter
    case Moving => t.filter
    case Running => t.filter + 1
    case Releasing => t.filter + 1
    case Waking(_) => t.filter + 1
    case Returning => t.filter + 1
    case _ => 0
  }

  /** The number of filters run on item x. */
  function PassedBy(s: State, x: nat): nat
    requires x < |s.home|
  {
    match s.home[x].place
    case InTask(i) => if i < |s.tasks| then Passed(s.tasks[i]) else 0
    case Woken(i) => if i < |s.tasks| then s.tasks[i].filter else 0
    case Deferred(f, _) => f
    case Out => |s.filters|
  }

  /** A step of task i that moves no item, seen by an item that i does not carry. */
  lemma Elsewhere(s: State, s': State, i: nat, x: nat)
    requires i < |s.tasks| <= |s'.tasks| && s'.filters == s.filters && x < |s.home| && x < |s'.home|
    requires forall j :: 0 <= j < |s.tasks| && j != i ==> s'.tasks[j] == s.tasks[j]
    requires s'.home[x].place == s.home[x].place && s.home[x].place != InTask(i) && s.home[x].place != Woken(i)
    requires s.home[x].place.InTask? || s.home[x].place.Woken? ==> s.home[x].place.task < |s.tasks|
    ensures PassedBy(s', x) == PassedBy(s, x)
  {
  }

  lemma OnwardPassed(s: State, i: nat, f: nat, info: Info)
    requires Sane(s) && i < |s.tasks|
    ensures var s' := Onward(s, i, f, info);
      && |s'.tasks| == |s.tasks| && Passed(s'.tasks[i]) == f + 1 && s'.filters == s.filters
      && (forall j :: 0 <= j < |s.tasks| && j != i ==> s'.tasks[j] == s.tasks[j])
      && |s'.home| == |s.home| && (forall x :: 0 <= x < |s.home| ==> s'.home[x].place == s.home[x].place)
  {
  }

  /** Steps of a task that carries no item. */
  lemma BarePassed(s: State, a: Step, x: nat)
    requires Enabled(s, a) && TaskOk(s, a.i) && x < |s.home| && HomeOk(s, x) && Bare(s.tasks[a.i])
    requires a.Begin? || a.StopInput? || a.EndRead? || a.ParEnd? || a.Recycle? || a.Claim? || a.SpawnNext?
    ensures x < |Apply(s, a).home| && PassedBy(Apply(s, a), x) == PassedBy(s, x)
  {
    Elsewhere(s, Apply(s, a), a.i, x);
  }

  /** A new item has been through the first filter. */
  lemma ReadPassed(s: State, a: Step, x: nat)
    requires Enabled(s, a) && (a.Read? || a.ParRead?) && Struct(s) && x <= |s.home|
    ensures x < |Apply(s, a).home| && |Apply(s, a).home| == |s.home| + 1
    ensures PassedBy(Apply(s, a), x) == if x == |s.home| then 1 else PassedBy(s, x)
  {
    var s', i := Apply(s, a), a.i;
    assert TaskOk(s, i);
    if a.ParRead? {
      OnwardPassed(s.(home := s.home + [Home(0, InTask(i))]), i, 0, Info(|s.home|, 0, false));
    }
    if x < |s.home| {
      assert HomeOk(s, x);
      Elsewhere(s, s', i, x);
    }
  }

  /** The item that a task carries moves on with it. */
  lemma CarriedPassed(s: State, a: Step, x: nat)
    requires Enabled(s, a) && TaskOk(s, a.i) && Carries(s.tasks[a.i]) && x == s.tasks[a.i].info.item
    requires a.Claim? || a.SpawnNext? || a.Run? || a.Finish?
    ensures x < |Apply(s, a).home|
    ensures PassedBy(Apply(s, a), x) == PassedBy(s, x) + (if a.Run? then 1 else 0)
    ensures a.Run? ==> PassedBy(s, x) == s.tasks[a.i].filter
  {
    var i, t := a.i, s.tasks[a.i];
    if a.Claim? {
      OnwardPassed(s.(tokens := s.tokens - 1), i, 0, t.info);
    } else if a.SpawnNext? {
      OnwardPassed(s.(tasks := s.tasks + [START]), i, 0, t.info);
    } else if a.Finish? {
      OnwardPassed(s, i, t.filter, t.info);
    }
  }

  /** Items elsewhere do not notice. */
  lemma CarriedElsewhere(s: State, a: Step, x: nat)
    requires Enabled(s, a) && TaskOk(s, a.i) && Carries(s.tasks[a.i]) && x != s.tasks[a.i].info.item
    requires a.Claim? || a.SpawnNext? || a.Run? || a.Finish?
    requires x < |s.home| && HomeOk(s, x) && !s.tasks[a.i].phase.Waking?
    ensures x < |Apply(s, a).home| && PassedBy(Apply(s, a), x) == PassedBy(s, x)
  {
    var i, t := a.i, s.tasks[a.i];
    if a.Claim? {
      OnwardPassed(s.(tokens := s.tokens - 1), i, 0, t.info);
    } else if a.SpawnNext? {
      OnwardPassed(s.(tasks := s.tasks + [START]), i, 0, t.info);
    } else if a.Finish? {
      OnwardPassed(s, i, t.filter, t.info);
    }
    Elsewhere(s, Apply(s, a), i, x);
  }

  lemma ReturnPassed(s: State, i: nat, x: nat)
    requires Enabled(s, Return(i)) && TaskOk(s, i) && x < |s.home| && HomeOk(s, x)
    ensures x < |Apply(s, Return(i)).home| && PassedBy(Apply(s, Return(i)), x) == PassedBy(s, x)
  {
    if x != s.tasks[i].info.item {
      Elsewhere(s, Apply(s, Return(i)), i, x);
    }
  }

  lemma PutPassed(s: State, i: nat, x: nat)
    requires Config(s) && Enabled(s, PutNext(i)) && TaskOk(s, i) && x < |s.home| && HomeOk(s, x)
    ensures x < |Apply(s, PutNext(i)).home| && PassedBy(Apply(s, PutNext(i)), x) == PassedBy(s, x)
  {
    PutShape(s, Apply(s, PutNext(i)), i, s.tasks[i].filter);
    if x != s.tasks[i].info.item {
      Elsewhere(s, Apply(s, PutNext(i)), i, x);
    }
  }

  /** The task that advanced the buffer turns to the next filter. */
  lemma IdlePassed(s: State, i: nat, f: nat, x: nat)
    requires Config(s) && Enabled(s, Release(i)) && Fed(s, f) && f == s.tasks[i].filter && TaskOk(s, i)
    requires s.stages[f].buffer.low + 1 !in s.stages[f].buffer.deferred && x < |s.home| && HomeOk(s, x)
    ensures x < |Apply(s, Release(i)).home| && PassedBy(Apply(s, Release(i)), x) == PassedBy(s, x)
  {
    IdleBaseOk(s, i, f);
    OnwardPassed(IdleBase(s, i, f), i, f, s.tasks[i].info);
    if x != s.tasks[i].info.item {
      Elsewhere(s, Apply(s, Release(i)), i, x);
    }
  }

  /** The item taken from the buffer stays before the filter. */
  lemma WakesPassed(s: State, i: nat, f: nat, x: nat)
    requires Config(s) && Enabled(s, Release(i)) && Fed(s, f) && f == s.tasks[i].filter && TaskOk(s, i)
    requires DeferredOk(s, f) && s.stages[f].buffer.low + 1 in s.stages[f].buffer.deferred
    requires x < |s.home| && HomeOk(s, x)
    ensures x < |Apply(s, Release(i)).home| && PassedBy(Apply(s, Release(i)), x) == PassedBy(s, x)
  {
    var s', w := Apply(s, Release(i)), s.stages[f].buffer.deferred[s.stages[f].buffer.low + 1];
    assert s'.tasks == s.tasks[i := s.tasks[i].(phase := Waking(w))];
    assert s.home[w.item].place.Deferred? && s.home[w.item].place.filter == f;
    if x != w.item && x != s.tasks[i].info.item {
      Elsewhere(s, s', i, x);
    }
  }

  lemma WakePassed(s: State, i: nat, x: nat)
    requires Enabled(s, Wake(i)) && TaskOk(s, i) && x < |s.home| && HomeOk(s, x)
    ensures x < |Apply(s, Wake(i)).home| && PassedBy(Apply(s, Wake(i)), x) == PassedBy(s, x)
  {
    var s', t := Apply(s, Wake(i)), s.tasks[i];
    var w, j, st := t.phase.wakee, |s.tasks|, s.stages[t.filter];
    var s1 := SetStage(s, t.filter, st.(holder := Some(j))).(tasks := s.tasks + [Task(Ready, t.filter, w)]);
    OnwardPassed(PutAt(s1, w.item, InTask(j)), i, t.filter, t.info);
    if x != w.item && x != t.info.item {
      Elsewhere(s, s', i, x);
    }
  }

  lemma ReleasePassed(s: State, i: nat, x: nat)
    requires Struct(s) && Enabled(s, Release(i)) && x < |s.home|
    ensures x < |Apply(s, Release(i)).home| && PassedBy(Apply(s, Release(i)), x) == PassedBy(s, x)
  {
    var f := s.tasks[i].filter;
    assert TaskOk(s, i) && HomeOk(s, x);
    AtSerial(s, i);
    if s.stages[f].buffer.low + 1 in s.stages[f].buffer.deferred {
      WakesPassed(s, i, f, x);
    } else {
      IdlePassed(s, i, f, x);
    }
  }

  lemma PlainPassed(s: State, a: Step, x: nat)
    requires Enabled(s, a) && TaskOk(s, a.i) && x < |s.home| && HomeOk(s, x)
    requires !a.Read? && !a.ParRead? && !a.Return? && !a.PutNext? && !a.Release? && !a.Wake?
    ensures x < |Apply(s, a).home|
    ensures PassedBy(Apply(s, a), x) == PassedBy(s, x) + (if Runs(s, a, x).Some? then 1 else 0)
    ensures Runs(s, a, x).Some? ==> Runs(s, a, x).value == PassedBy(s, x)
  {
    if Bare(s.tasks[a.i]) {
      BarePassed(s, a, x);
    } else if x == s.tasks[a.i].info.item {
      CarriedPassed(s, a, x);
    } else {
      CarriedElsewhere(s, a, x);
    }
  }

  /** A step runs a filter on an item exactly if the item is one filter further, and it runs the next one. */
  lemma PassedStep(s: State, a: Step, x: nat)
    requires Struct(s) && Enabled(s, a) && x < |s.home|
    ensures x < |Apply(s, a).home|
    ensures PassedBy(Apply(s, a), x) == PassedBy(s, x) + (if Runs(s, a, x).Some? then 1 else 0)
    ensures Runs(s, a, x).Some? ==> Runs(s, a, x).value == PassedBy(s, x)
  {
    var i := a.i;
    assert TaskOk(s, i) && HomeOk(s, x);
    match a
    case Read(_) => ReadPassed(s, a, x);
    case ParRead(_) => ReadPassed(s, a, x);
    case Return(_) => ReturnPassed(s, i, x);
    case PutNext(_) => PutPassed(s, i, x);
    case Release(_) => ReleasePassed(s, i, x);
    case Wake(_) => WakePassed(s, i, x);
    case _ => PlainPassed(s, a, x);
  }

  // ---------------------------------------------------------------- runs

  /** Items are numbered as they are read, and no filter but the first runs on an item that is not there yet. */
  lemma NewItem(s: State, a: Step, x: nat)
    requires Struct(s) && Enabled(s, a) && x >= |s.home|
    ensures |s.home| <= |Apply(s, a).home|
    ensures if x < |Apply(s, a).home| then Runs(s, a, x) == Some(0) && PassedBy(Apply(s, a), x) == 1
      else Runs(s, a, x) == None
  {
    assert TaskOk(s, a.i);
    if a.Read? || a.ParRead? {
      if x == |s.home| {
        ReadPassed(s, a, x);
      }
      ReadPassed(s, a, |s.home|);
    } else {
      SameItems(s, a);
    }
  }

  lemma SameItems(s: State, a: Step)
    requires Enabled(s, a) && !a.Read? && !a.ParRead?
    ensures |Apply(s, a).home| == |s.home|
  {
  }

  /** What has been run on item x, judging by where it is. */
  function Expected(s: State, x: nat): seq<nat> { if x < |s.home| then UpTo(PassedBy(s, x)) else [] }

  lemma JourneyStep(s: State, a: Step, x: nat)
    requires Struct(s) && Enabled(s, a)
    ensures var r := Runs(s, a, x);
      Expected(Apply(s, a), x) == if r.Some? then Expected(s, x) + [r.value] else Expected(s, x)
  {
    if x < |s.home| {
      PassedStep(s, a, x);
      OneMore(PassedBy(s, x));
    } else {
      NewItem(s, a, x);
      OneMore(0);
    }
  }

  lemma OneMore(n: nat)
    ensures UpTo(n) + [n] == UpTo(n + 1)
  {
  }

  /** At any time, what has been run on an item is an initial piece of the chain of filters, each once and in order. */
  lemma {:induction false} Journey(run: seq<State>, steps: seq<Step>, n: nat, x: nat)
    requires IsTrail(run, steps) && n < |run|
    ensures Trace(run, steps, n, x) == Expected(run[n], x)
    decreases n
  {
    if n > 0 {
      var l := n - 1;
      assert StepAt(run, steps, l);
      Journey(run, steps, l, x);
      TrailStruct(run, steps, l);
      JourneyNext(run, steps, l, x);
    }
  }

  lemma JourneyNext(run: seq<State>, steps: seq<Step>, l: nat, x: nat)
    requires l < |steps| < |run| && Struct(run[l]) && Takes(run[l], steps[l], run[l + 1])
    requires Trace(run, steps, l, x) == Expected(run[l], x)
    ensures Trace(run, steps, l + 1, x) == Expected(run[l + 1], x)
  {
    JourneyStep(run[l], steps[l], x);
  }

  /** An item that is out of the pipe has been through every filter, parallel ones included, once and in order. */
  lemma OutMeansThrough(run: seq<State>, steps: seq<Step>, n: nat, x: nat)
    requires IsTrail(run, steps) && n < |run| && x < |run[n].home| && run[n].home[x].place == Out
    ensures Trace(run, steps, n, x) == UpTo(|run[n].filters|)
  {
    Journey(run, steps, n, x);
  }

  /** When no task is left every filter has run on every item exactly once. */
  lemma EveryFilterOnce(run: seq<State>, steps: seq<Step>, n: nat, x: nat, f: nat) returns (k: nat)
    requires IsTrail(run, steps) && n < |run| && Finished(run[n]) && x < |run[n].home| && f < |run[n].filters|
    ensures Trace(run, steps, n, x) == UpTo(|run[n].filters|)
    ensures k < n && Runs(run[k], steps[k], x) == Some(f)
    ensures forall j :: 0 <= j < n && Runs(run[j], steps[j], x) == Some(f) ==> j == k
  {
    TrailIsRun(run, steps);
    FinishedRun(run, n);
    OutMeansThrough(run, steps, n, x);
    assert UpTo(|run[n].filters|)[f] == f;
    k := RunAt(run, steps, n, x, f);
    OnlyOnce(run, steps, n, x, k);
  }

  /** No filter occurs twice in a trace that counts up. */
  lemma OnlyOnce(run: seq<State>, steps: seq<Step>, n: nat, x: nat, k: nat)
    requires k < n <= |steps| <= |run| && Runs(run[k], steps[k], x).Some?
    requires Trace(run, steps, n, x) == UpTo(|Trace(run, steps, n, x)|)
    ensures forall j :: 0 <= j < n && Runs(run[j], steps[j], x) == Runs(run[k], steps[k], x) ==> j == k
  {
    forall j | 0 <= j < n && Runs(run[j], steps[j], x) == Runs(run[k], steps[k], x)
      ensures j == k
    {
      TraceAt(run, steps, n, x, j);
      TraceAt(run, steps, n, x, k);
      if j < k {
        TraceAt(run, steps, k, x, j);
      } else if k < j {
        TraceAt(run, steps, j, x, k);
      }
    }
  }

  /** A step that runs a filter adds it to the trace at its place. */
  lemma {:induction false} TraceAt(run: seq<State>, steps: seq<Step>, n: nat, x: nat, k: nat)
    requires k < n <= |steps| <= |run| && Runs(run[k], steps[k], x).Some?
    ensures |Trace(run, steps, k, x)| < |Trace(run, steps, n, x)|
    ensures Trace(run, steps, n, x)[|Trace(run, steps, k, x)|] == Runs(run[k], steps[k], x).value
    decreases n
  {
    if k < n - 1 {
      TraceAt(run, steps, n - 1, x, k);
    }
  }

  lemma {:induction false} RunAt(run: seq<State>, steps: seq<Step>, n: nat, x: nat, f: nat) returns (k: nat)
    requires n <= |steps| <= |run| && f in Trace(run, steps, n, x)
    ensures k < n && Runs(run[k], steps[k], x) == Some(f)
  {
    k := n - 1;
    if Runs(run[k], steps[k], x) != Some(f) {
      k := RunAt(run, steps, k, x, f);
    }
  }
}
