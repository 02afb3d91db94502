/** What a whole call of wake_or_launch achieves, in every run of the worker pool. */
module WorkerLaunch {
  import opened Wrappers
  import opened WorkerLifecycle

  predicate Takes(s: State, a: Step, s': State) { Enabled(s, a) && Apply(s, a) == s' }

  /** A run with the steps it takes. */
  ghost predicate IsTrail(run: seq<State>, steps: seq<Step>) {
    && |run| == |steps| + 1 && Initial(run[0])
    && forall k :: 0 <= k < |steps| ==> StepAt(run, steps, k)
  }

  predicate StepAt(run: seq<State>, steps: seq<Step>, k: nat) {
    k < |steps| && k + 1 < |run| && Takes(run[k], steps[k], run[k + 1])
  }

  lemma TrailInv(run: seq<State>, steps: seq<Step>, n: nat)
    requires IsTrail(run, steps) && n < |run|
    ensures Inv(run[n])
  {
    forall i | 0 <= i < |run| - 1
      ensures NextAt(run, i)
    {
      assert StepAt(run, steps, i);
    }
    RunInv(run, n);
  }

  /** Where the call of c on worker w stands. */
  predicate Calling(s: State, c: Caller, w: nat) {
    Exists(s, c) && w < |s.workers| && (CallOf(s, c) != Idle ==> CallOf(s, c).w == w)
  }

  /** Someone launches or has launched the worker, or it is told to quit. */
  predicate Launched(r: Record) { r.launcher.Some? || r.state == Quit }

  lemma LaunchedKept(s: State, a: Step, w: nat)
    requires Enabled(s, a) && w < |s.workers| && Launched(s.workers[w])
    ensures w < |Apply(s, a).workers| && Launched(Apply(s, a).workers[w])
  {
  }

  /** The call is past its load and its attempt to claim the worker. */
  predicate Past(call: Call) { !call.Load? && !call.CasInit? }

  /** A step of anyone: the call stays where it is, or its own step takes it on. */
  lemma CallStep(s: State, a: Step, c: Caller, w: nat)
    requires Shape(s) && Enabled(s, a) && Calling(s, c, w) && a != Begin(c, w) && !(a.Begin? && a.c == c)
    ensures Calling(Apply(s, a), c, w)
    ensures a != Advance(c) ==> CallOf(Apply(s, a), c) == CallOf(s, c)
    ensures a == Advance(c) ==> CallOf(Apply(s, a), c) == NextCall(s.workers[w], CallOf(s, c))
  {
    if a.Advance? {
      CallOfAfter(s, a.c, c);
      CallEffect(s, a.c, w);
    }
  }

  /** The outcome of a load that saw the state st. */
  ghost predicate Outcome(run: seq<State>, m: nat, n: nat, c: Caller, w: nat, st: WorkerState)
    requires m < n < |run| && w < |run[n].workers|
  {
    match st
    case Init => Launched(run[n].workers[w])
    case Quit => run[n].workers[w].state == Quit
    case _ => exists k :: m < k <= n && Exists(run[k], c) && CallOf(run[k], c) == Notify(w)
  }

  lemma QuitKept(s: State, a: Step, w: nat)
    requires Enabled(s, a) && w < |s.workers| && s.workers[w].state == Quit && (a.Advance? ==> Shape(s))
    ensures w < |Apply(s, a).workers| && Apply(s, a).workers[w].state == Quit
  {
    if a.Advance? {
      CallEffect(s, a.c, w);
    }
  }

  /** The own step that leaves the load or the claim behind settles the outcome. */
  lemma Settles(s: State, c: Caller, w: nat)
    requires Shape(s) && Enabled(s, Advance(c)) && Calling(s, c, w) && CallOf(s, c).CasInit?
    ensures w < |Apply(s, Advance(c)).workers| && Launched(Apply(s, Advance(c)).workers[w])
  {
    assert WorkerOk(s, w);
    CallEffect(s, c, w);
  }

  lemma Noticed(run: seq<State>, m: nat, l: nat, c: Caller, w: nat, st: WorkerState)
    requires m < l < |run| - 1 && w < |run[l].workers| && w < |run[l + 1].workers| && Outcome(run, m, l, c, w, st)
    requires Launched(run[l].workers[w]) ==> Launched(run[l + 1].workers[w])
    requires run[l].workers[w].state == Quit ==> run[l + 1].workers[w].state == Quit
    ensures Outcome(run, m, l + 1, c, w, st)
  {
    if st != Init && st != Quit {
      var k :| m < k <= l && Exists(run[k], c) && CallOf(run[k], c) == Notify(w);
      assert CallOf(run[k], c) == Notify(w);
    }
  }

  /** Where the call stands at n, and what it has settled, given the load at step k. */
  ghost predicate Stands(run: seq<State>, k: nat, n: nat, c: Caller, w: nat)
    requires k < n < |run| && Calling(run[k], c, w) && Calling(run[n], c, w)
  {
    var st, call := run[k].workers[w].state, CallOf(run[n], c);
    && !call.Load? && (call.CasInit? ==> st == Init)
    && (Past(call) ==> Outcome(run, k, n, c, w, st))
  }

  lemma LoadStep(s: State, c: Caller, w: nat)
    requires Shape(s) && Enabled(s, Advance(c)) && Calling(s, c, w) && CallOf(s, c).Load?
    ensures var s', st := Apply(s, Advance(c)), s.workers[w].state;
      && Calling(s', c, w) && s'.workers[w].state == st
      && CallOf(s', c) == (match st case Init => CasInit(w) case Quit => Idle case _ => Notify(w))
  {
    CallStep(s, Advance(c), c, w);
    CallEffect(s, c, w);
  }

  lemma LoadStands(run: seq<State>, k: nat, c: Caller, w: nat)
    requires k + 1 < |run| && Shape(run[k]) && Calling(run[k], c, w) && CallOf(run[k], c).Load?
    requires Takes(run[k], Advance(c), run[k + 1])
    ensures Calling(run[k + 1], c, w) && Stands(run, k, k + 1, c, w)
  {
    LoadStep(run[k], c, w);
  }

  lemma StandsStill(run: seq<State>, steps: seq<Step>, k: nat, l: nat, c: Caller, w: nat)
    requires k < l < |steps| == |run| - 1 && Calling(run[k], c, w) && Calling(run[l], c, w) && Stands(run, k, l, c, w)
    requires Shape(run[l]) && Takes(run[l], steps[l], run[l + 1]) && !(steps[l].Begin? && steps[l].c == c)
    ensures Calling(run[l + 1], c, w) && Stands(run, k, l + 1, c, w)
  {
    var s, a := run[l], steps[l];
    CallStep(s, a, c, w);
    if Launched(s.workers[w]) {
      LaunchedKept(s, a, w);
    }
    if s.workers[w].state == Quit {
      QuitKept(s, a, w);
    }
    if Past(CallOf(s, c)) {
      Noticed(run, k, l, c, w, run[k].workers[w].state);
    } else if a == Advance(c) {
      Settles(s, c, w);
    }
  }

  /** From the load of the worker's state to step n. */
  lemma {:induction false} Loaded(run: seq<State>, steps: seq<Step>, m: nat, n: nat, c: Caller, w: nat) returns (k: nat)
    requires IsTrail(run, steps) && m < n < |run| && steps[m] == Begin(c, w)
    requires forall j :: m < j < n ==> !(steps[j].Begin? && steps[j].c == c)
    ensures Calling(run[n], c, w) && m < k <= n && Calling(run[k], c, w) && CallOf(run[k], c) == Load(w)
    ensures if k == n then CallOf(run[n], c) == Load(w) else steps[k] == Advance(c) && Stands(run, k, n, c, w)
    decreases n
  {
    var l := n - 1;
    assert StepAt(run, steps, l);
    if m == l {
      k := n;
    } else {
      k := Loaded(run, steps, m, l, c, w);
      TrailShape(run, steps, l);
      k := LoadedOn(run, steps, k, l, c, w);
    }
  }

  lemma TrailShape(run: seq<State>, steps: seq<Step>, n: nat)
    requires IsTrail(run, steps) && n < |run|
    ensures Shape(run[n])
  {
    TrailInv(run, steps, n);
  }

  /** One step further. */
  lemma LoadedOn(run: seq<State>, steps: seq<Step>, k: nat, l: nat, c: Caller, w: nat) returns (k': nat)
    requires k <= l < |steps| == |run| - 1 && StepAt(run, steps, l) && !(steps[l].Begin? && steps[l].c == c)
    requires Shape(run[l]) && Calling(run[l], c, w) && Calling(run[k], c, w) && CallOf(run[k], c) == Load(w)
    requires k < l ==> steps[k] == Advance(c) && Stands(run, k, l, c, w)
    ensures Calling(run[l + 1], c, w) && k <= k' <= l + 1 && Calling(run[k'], c, w) && CallOf(run[k'], c) == Load(w)
    ensures if k' == l + 1 then CallOf(run[l + 1], c) == Load(w)
      else steps[k'] == Advance(c) && Stands(run, k', l + 1, c, w)
  {
    k' := k;
    if k < l {
      StandsStill(run, steps, k, l, c, w);
    } else {
      CallStep(run[l], steps[l], c, w);
      if steps[l] == Advance(c) {
        LoadStands(run, l, c, w);
      } else {
        k' := l + 1;
      }
    }
  }

  /**
   When a call of wake_or_launch is over, a worker it found not launched is launched or being launched, or told to quit;
   one it found launched was notified; and if the caller itself won the launch, the thread has been created.
   */
  lemma LaunchCall(run: seq<State>, steps: seq<Step>, m: nat, n: nat, c: Caller, w: nat) returns (k: nat)
    requires IsTrail(run, steps) && m < n < |run| && steps[m] == Begin(c, w)
    requires forall j :: m < j < n ==> !(steps[j].Begin? && steps[j].c == c)
    requires Exists(run[n], c) && CallOf(run[n], c) == Idle
    ensures m < k < n && steps[k] == Advance(c) && w < |run[k].workers| && w < |run[n].workers|
    ensures match run[k].workers[w].state
      case Init => run[n].workers[w].launcher.Some? || run[n].workers[w].state == Quit
      case Quit => run[n].workers[w].state == Quit
      case _ => exists j :: k < j <= n && Exists(run[j], c) && CallOf(run[j], c) == Notify(w)
    ensures run[n].workers[w].launcher == Some(c) ==> run[n].workers[w].thread != NoThread
  {
    k := Loaded(run, steps, m, n, c, w);
    TrailInv(run, steps, n);
    assert WorkerOk(run[n], w);
    assert Outcome(run, k, n, c, w, run[k].workers[w].state);
  }
}
