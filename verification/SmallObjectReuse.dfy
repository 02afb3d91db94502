/** What allocation, deallocation and destruction achieve, in every run of the small object pool. */
module SmallObjectReuse {
  import opened Wrappers
  import opened Sums
  import opened Sequences
  import opened SmallObjectPool
  import opened SmallObjectPoolRuns

  predicate Takes(s: State, a: Step, s': State) { Enabled(s, a) && Apply(s, a) == s' }

  /** A run with the steps it takes. */
  ghost predicate IsTrail(run: seq<State>, steps: seq<Step>) {
    && |run| == |steps| + 1 && Init(run[0])
    && forall k :: 0 <= k < |steps| ==> StepAt(run, steps, k)
  }

  predicate StepAt(run: seq<State>, steps: seq<Step>, k: nat) {
    k < |steps| && k + 1 < |run| && Takes(run[k], steps[k], run[k + 1])
  }

  lemma TrailIsRun(run: seq<State>, steps: seq<Step>)
    requires IsTrail(run, steps)
    ensures IsRun(run)
  {
    forall i | 0 <= i < |run| - 1
      ensures NextAt(run, i)
    {
      assert StepAt(run, steps, i);
    }
  }

  // ---------------------------------------------------------------- allocation

  /** The step gives out object o, which was on a free list or is new; no other object changes hands. */
  predicate GivesOut(s: State, s': State, o: nat) {
    && o < |s'.objects| && s'.objects[o].phase == Out && |s.objects| <= |s'.objects|
    && (o < |s.objects| ==> s.objects[o].phase == Listed && |s'.objects| == |s.objects|)
    && (o >= |s.objects| ==> o == |s.objects| && |s'.objects| == |s.objects| + 1)
    && forall x :: 0 <= x < |s.objects| && x != o ==> s'.objects[x].phase == s.objects[x].phase
  }

  /** From where a step of allocate takes the object it gives out. */
  predicate TakesFrom(s: State, a: Step, s': State) {
    if a.TakePrivate? then s.mine != [] && GivesOut(s, s', s.mine[0]) && s'.mine == s.mine[1..] && s'.theirs == s.theirs
    else if a.TakePublic? then
      s.mine == [] && s.theirs != [] && GivesOut(s, s', s.theirs[0]) && s'.mine == s.theirs[1..] && s'.theirs == []
    else if s.theirs == [] then s.mine == [] && GivesOut(s, s', |s.objects|) && s'.mine == s'.theirs == []
    else s' == s.(owner := Exchanging)
  }

  lemma AllocateStep(s: State, a: Step)
    requires ListsOk(s) && Enabled(s, a) && (a.TakePrivate? || a.LookPublic? || a.TakePublic?)
    ensures TakesFrom(s, a, Apply(s, a))
  {
    assert forall k :: 0 <= k < |s.mine| ==> s.mine[k] in s.mine;
    assert forall k :: 0 <= k < |s.theirs| ==> s.theirs[k] in s.theirs;
    assert s.mine != [] ==> ObjectOk(s, s.mine[0]);
    assert s.theirs != [] ==> ObjectOk(s, s.theirs[0]);
  }

  /**
   Allocation gives out one object: the head of the private list; if that is empty, the head of the public list, whose
   rest becomes the private list; and a new one only if both are empty.
   */
  lemma Allocates(run: seq<State>, n: nat, a: Step)
    requires IsRun(run) && n < |run| && Enabled(run[n], a) && (a.TakePrivate? || a.LookPublic? || a.TakePublic?)
    ensures TakesFrom(run[n], a, Apply(run[n], a))
  {
    RunInv(run, n);
    AllocateStep(run[n], a);
  }

  // ---------------------------------------------------------------- no more objects than were in use at once

  lemma CreatesStep(s: State, a: Step)
    requires Enabled(s, a)
    ensures |Apply(s, a).objects| ==
      if a.LookPublic? && s.public == Null then |s.objects| + 1 else |s.objects|
  {
  }

  /** The number of objects created is the largest number that were allocated at once. */
  lemma {:induction false} Peak(run: seq<State>, steps: seq<Step>, n: nat) returns (k: nat)
    requires IsTrail(run, steps) && n < |run|
    ensures k <= n && Sum(run[k].objects, Outstanding) == |run[n].objects|
    decreases n
  {
    if n == 0 {
      k := 0;
    } else {
      var l := n - 1;
      assert StepAt(run, steps, l);
      CreatesStep(run[l], steps[l]);
      if |run[n].objects| == |run[l].objects| {
        k := Peak(run, steps, l);
      } else {
        k := n;
        TrailIsRun(run, steps);
        AllOutstanding(run, l);
        SumAppend(run[l].objects, Object(None, Out), Outstanding);
      }
    }
  }

  /** When an object is created all others are allocated. */
  lemma AllOutstanding(run: seq<State>, n: nat)
    requires IsRun(run) && n < |run| && Enabled(run[n], LookPublic) && run[n].public == Null
    ensures Sum(run[n].objects, Outstanding) == |run[n].objects|
  {
    Conservation(run, n);
    RunInv(run, n);
  }

  // ---------------------------------------------------------------- deallocation

  /** The object has been on a free list between m and n. */
  ghost predicate WasListed(run: seq<State>, m: nat, n: nat, o: nat) {
    exists k :: m < k <= n && k < |run| && o < |run[k].objects| && run[k].objects[o].phase == Listed
  }

  lemma PhaseStep(s: State, a: Step, o: nat)
    requires ListsOk(s) && Enabled(s, a) && o < |s.objects|
    ensures o < |Apply(s, a).objects|
    ensures Apply(s, a).objects[o].phase == Out ==> s.objects[o].phase == Out || s.objects[o].phase == Listed
  {
    assert s.mine != [] ==> s.mine[0] in s.mine && ObjectOk(s, s.mine[0]);
    assert s.theirs != [] ==> s.theirs[0] in s.theirs && ObjectOk(s, s.theirs[0]);
  }

  /** An object that is being freed is not given out again before it was on a free list. */
  lemma {:induction false} FreedFirst(run: seq<State>, steps: seq<Step>, m: nat, n: nat, o: nat)
    requires IsTrail(run, steps) && m < n < |run| && (steps[m] == BeginFree(o) || steps[m] == FreeOwn(o))
    ensures o < |run[n].objects| && (run[n].objects[o].phase == Out ==> WasListed(run, m, n, o))
    decreases n
  {
    var l := n - 1;
    assert StepAt(run, steps, l);
    if m < l {
      FreedFirst(run, steps, m, l, o);
      TrailIsRun(run, steps);
      RunInv(run, l);
      PhaseStep(run[l], steps[l], o);
      if run[n].objects[o].phase == Out {
        ListedBefore(run, m, l, o);
      }
    }
  }

  lemma ListedBefore(run: seq<State>, m: nat, l: nat, o: nat)
    requires m < l && l + 1 < |run| && o < |run[l].objects|
    requires run[l].objects[o].phase == Listed || WasListed(run, m, l, o)
    ensures WasListed(run, m, l + 1, o)
  {
    if run[l].objects[o].phase != Listed {
      var k :| m < k <= l && k < |run| && o < |run[k].objects| && run[k].objects[o].phase == Listed;
      assert run[k].objects[o].phase == Listed && k <= l + 1;
    }
  }

  // ---------------------------------------------------------------- destruction

  lemma DestroyingKept(s: State, a: Step)
    requires Enabled(s, a) && !Alive(s.owner)
    ensures !Alive(Apply(s, a).owner)
  {
  }

  /** Once destroy has begun the pool is not used again, and when it is over no object is on a free list. */
  lemma {:induction false} DestroyCall(run: seq<State>, steps: seq<Step>, m: nat, n: nat)
    requires IsTrail(run, steps) && m < n < |run| && steps[m] == BeginDestroy
    ensures !Alive(run[n].owner)
    ensures run[n].owner == Finished ==> forall o :: 0 <= o < |run[n].objects| ==> run[n].objects[o].phase != Listed
    decreases n
  {
    var l := n - 1;
    assert StepAt(run, steps, l);
    if m < l {
      DestroyCall(run, steps, m, l);
      DestroyingKept(run[l], steps[l]);
    }
    TrailIsRun(run, steps);
    if run[n].owner == Finished {
      NoneListed(run, n);
    }
  }

  lemma NoneListed(run: seq<State>, n: nat)
    requires IsRun(run) && n < |run| && run[n].owner == Finished
    ensures forall o :: 0 <= o < |run[n].objects| ==> run[n].objects[o].phase != Listed
  {
    forall o | 0 <= o < |run[n].objects|
      ensures run[n].objects[o].phase != Listed
    {
      RunInv(run, n);
      assert ObjectOk(run[n], o);
    }
  }

  /** Bounds the owner's steps left of destroy while nobody else frees. */
  function DestroyLeft(s: State): int {
    match s.owner
    case CleanPrivate(_) => |s.mine| + |s.theirs| + 5
    case Marking => |s.theirs| + 4
    case CleanPublic(_) => |s.mine| + 2
    case Subtracting => 1
    case _ => 0
  }

  function DestroyStep(s: State): Step {
    match s.owner
    case Marking => Mark
    case Subtracting => Subtract
    case _ => if s.cleaning.Some? then CleanOne else CleanDone
  }

  /** destroy can always take its next step, and each brings it closer to the end. */
  lemma DestroyGoesOn(run: seq<State>, n: nat)
    requires IsRun(run) && n < |run|
    requires Cleaning(run[n].owner) || run[n].owner == Marking || run[n].owner == Subtracting
    ensures Enabled(run[n], DestroyStep(run[n]))
    ensures 0 <= DestroyLeft(Apply(run[n], DestroyStep(run[n]))) < DestroyLeft(run[n])
  {
    RunInv(run, n);
  }
}
