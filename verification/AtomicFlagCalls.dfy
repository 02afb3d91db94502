/** What a whole call of test_and_set or try_clear_if achieves, in every run of the atomic flag. */
module AtomicFlagCalls {
  import opened AtomicFlag

  predicate Takes(s: State, a: Step, s': State) { Enabled(s, a) && Apply(s, a) == s' }

  /** A run with the steps it takes. */
  ghost predicate IsTrail(run: seq<State>, steps: seq<Step>) {
    && |run| == |steps| + 1 && Init(run[0])
    && forall k :: 0 <= k < |steps| ==> StepAt(run, steps, k)
  }

  predicate StepAt(run: seq<State>, steps: seq<Step>, k: nat) {
    k < |steps| && k + 1 < |run| && Takes(run[k], steps[k], run[k + 1])
  }

  lemma TrailInv(run: seq<State>, steps: seq<Step>, n: nat)
    requires IsTrail(run, steps) && n < |run|
    ensures Inv(run[n])
  {
    forall i | 0 <= i < |run| - 1
      ensures NextAt(run, i)
    {
      assert StepAt(run, steps, i);
    }
    RunInv(run, n);
  }

  // ---------------------------------------------------------------- test_and_set

  /** When test_and_set returns, the flag is up; it returns true exactly if it found the flag UNSET and raised it. */
  lemma SetReturns(run: seq<State>, steps: seq<Step>, n: nat, i: nat)
    requires IsTrail(run, steps) && n < |steps| && i < |run[n].producers| && i < |run[n + 1].producers|
    requires !run[n].producers[i].Finished? && run[n + 1].producers[i].Finished?
    ensures run[n + 1].word != Unset
    ensures run[n + 1].producers[i] == Finished(true) <==> run[n].word == Unset
    ensures run[n + 1].sets == run[n].sets + if run[n + 1].producers[i] == Finished(true) then 1 else 0
  {
    assert StepAt(run, steps, n);
  }

  function ProducerLeft(p: Producer): nat {
    match p
    case Adding => 4
    case Loading => 3
    case Interrupting(_) => 2
    case Setting => 1
    case Finished(_) => 0
  }

  function ClearerLeft(c: Clearer): nat {
    match c
    case Away => 0
    case Clearing => 4
    case Looking => 3
    case Scanning(_) => 2
    case Committing => 1
    case Reverting => 1
  }

  /** A thread inside a call can always take its own next step, and a call takes at most four. */
  lemma CallsAreShort(s: State, a: Step)
    requires Enabled(s, a)
    ensures var s' := Apply(s, a);
      && (a.Produce? || a.Load? || a.Interrupt? || a.SetFlag? ==>
           a.i < |s'.producers| == |s.producers| && ProducerLeft(s'.producers[a.i]) < ProducerLeft(s.producers[a.i]))
      && (a.MarkBusy? || a.BeginLook? || a.EndLook? || a.Commit? || a.Revert? ==>
           a.c < |s'.clearers| == |s.clearers| && ClearerLeft(s'.clearers[a.c]) < ClearerLeft(s.clearers[a.c]))
  {
  }

  // ---------------------------------------------------------------- try_clear_if

  /** A producer interrupts the clear transaction of c. */
  predicate Interrupts(s: State, a: Step, c: nat) {
    a.Interrupt? && a.i < |s.producers| && s.producers[a.i] == Interrupting(c) && s.word == Busy(c)
  }

  /** The step does not spoil the clear of c. */
  predicate Harmless(s: State, a: Step, c: nat) {
    && (a == MarkBusy(c) ==> s.word == Set)
    && (a.EndLook? && a.c == c ==> a.empty)
    && !Interrupts(s, a, c)
  }

  /** The call that began at step m has found the flag SET and nothing has spoilt it before step n. */
  ghost predicate OnTrack(run: seq<State>, steps: seq<Step>, m: nat, n: nat, c: nat)
    requires m < n < |run| == |steps| + 1
  {
    run[m].word == Set && forall k :: m < k < n ==> Harmless(run[k], steps[k], c)
  }

  lemma OneMoreStep(run: seq<State>, steps: seq<Step>, m: nat, l: nat, c: nat)
    requires m < l < |steps| == |run| - 1
    ensures OnTrack(run, steps, m, l + 1, c) <==> OnTrack(run, steps, m, l, c) && Harmless(run[l], steps[l], c)
  {
  }

  /** Where the call stands says whether it is on track. */
  predicate Standing(s: State, c: nat, onTrack: bool)
    requires c < |s.clearers|
  {
    match s.clearers[c]
    case Away => true
    case Clearing => onTrack
    case Reverting => !onTrack
    case _ => onTrack <==> s.word == Busy(c)
  }

  lemma StandingKept(s: State, a: Step, c: nat, onTrack: bool)
    requires Inv(s) && Enabled(s, a) && c < |s.clearers| && Standing(s, c, onTrack) && s.clearers[c] != Away
    ensures c < |Apply(s, a).clearers| && Standing(Apply(s, a), c, onTrack && Harmless(s, a, c))
  {
  }

  lemma ClearEnds(s: State, a: Step, c: nat, onTrack: bool)
    requires Inv(s) && Enabled(s, a) && c < |s.clearers| && Standing(s, c, onTrack) && s.clearers[c] != Away
    requires c < |Apply(s, a).clearers| && Apply(s, a).clearers[c] == Away
    ensures onTrack && Harmless(s, a, c) <==> s.word != Unset && Apply(s, a).word == Unset
    ensures Apply(s, a).clears == s.clears + if onTrack && Harmless(s, a, c) then 1 else 0
  {
  }

  lemma {:induction false} InClear(run: seq<State>, steps: seq<Step>, m: nat, n: nat, c: nat)
    requires IsTrail(run, steps) && m < n < |run| && steps[m] == BeginClear(c)
    requires forall k :: m < k < n ==> c < |run[k].clearers| && run[k].clearers[c] != Away
    ensures c < |run[n].clearers| && (run[n].clearers[c] != Away ==> Standing(run[n], c, OnTrack(run, steps, m, n, c)))
    decreases n
  {
    var l := n - 1;
    assert StepAt(run, steps, l);
    if m < l {
      InClear(run, steps, m, l, c);
      TrailInv(run, steps, l);
      OneMoreStep(run, steps, m, l, c);
      StandingKept(run[l], steps[l], c, OnTrack(run, steps, m, l, c));
    }
  }

  /**
   try_clear_if clears the flag, and returns true, exactly if it found the flag SET twice, its predicate held, and no
   producer interrupted it.
   */
  lemma ClearCall(run: seq<State>, steps: seq<Step>, m: nat, n: nat, c: nat)
    requires IsTrail(run, steps) && m < n < |run| && steps[m] == BeginClear(c)
    requires forall k :: m < k < n ==> c < |run[k].clearers| && run[k].clearers[c] != Away
    requires c < |run[n].clearers| && run[n].clearers[c] == Away
    ensures OnTrack(run, steps, m, n, c) <==> run[n - 1].word != Unset && run[n].word == Unset
    ensures run[n].clears == run[n - 1].clears + if OnTrack(run, steps, m, n, c) then 1 else 0
  {
    var l := n - 1;
    assert StepAt(run, steps, l);
    if m < l {
      InClear(run, steps, m, l, c);
      TrailInv(run, steps, l);
      OneMoreStep(run, steps, m, l, c);
      ClearEnds(run[l], steps[l], c, OnTrack(run, steps, m, l, c));
    }
  }
}
