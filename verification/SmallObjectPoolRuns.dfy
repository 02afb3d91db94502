/** What holds in every run of the small object pool. */
module SmallObjectPoolRuns {
  import opened Sums
  import opened Sequences
  import opened SmallObjectPool

  ghost predicate Next(s: State, s': State) {
    exists a: Step :: Enabled(s, a) && Apply(s, a) == s'
  }

  ghost predicate IsRun(run: seq<State>) {
    && run != []
    && Init(run[0])
    && forall i :: 0 <= i < |run| - 1 ==> NextAt(run, i)
  }

  ghost predicate NextAt(run: seq<State>, i: nat) { i + 1 < |run| && Next(run[i], run[i + 1]) }

  lemma {:induction false} RunInv(run: seq<State>, n: nat)
    requires IsRun(run) && n < |run|
    ensures ListsOk(run[n]) && Counted(run[n])
    decreases n
  {
    if n > 0 {
      RunInv(run, n - 1);
      assert NextAt(run, n - 1);
      var a :| Enabled(run[n - 1], a) && Apply(run[n - 1], a) == run[n];
      ListsKept(run[n - 1], a);
      CountedKept(run[n - 1], a);
    }
  }

  /** Until the pool dies, the objects created are those on the private list, on the public list, and outstanding. */
  lemma Conservation(run: seq<State>, n: nat)
    requires IsRun(run) && n < |run| && Alive(run[n].owner)
    ensures var s := run[n];
      s.privateCounter == |s.objects| == |s.mine| + |s.theirs| + Sum(s.objects, Outstanding)
  {
    var s := run[n];
    RunInv(run, n);
    EveryObjectOnce(s.objects);
    NoneGone(s);
  }

  lemma NoneGone(s: State)
    requires ListsOk(s) && Alive(s.owner)
    ensures Sum(s.objects, IsGone) == 0 && Sum(s.objects, IsCleaned) == 0
  {
    forall x | x in s.objects
      ensures IsGone(x) == 0 && IsCleaned(x) == 0
    {
      var o :| 0 <= o < |s.objects| && s.objects[o] == x;
      assert ObjectOk(s, o);
    }
    SumZero(s.objects, IsGone);
    SumZero(s.objects, IsCleaned);
  }

  /** An object is on at most one list, once, and exactly if it is neither allocated nor being freed nor deallocated. */
  lemma OnOneList(run: seq<State>, n: nat, o: nat)
    requires IsRun(run) && n < |run| && o < |run[n].objects|
    ensures var s := run[n];
      && (s.objects[o].phase == Listed <==> o in s.mine || o in s.theirs)
      && !(o in s.mine && o in s.theirs) && Distinct(s.mine) && Distinct(s.theirs)
      && (Alive(s.owner) ==> Chain(s.objects, s.private, s.mine)) && Chain(s.objects, Pointer(s.public), s.theirs)
  {
    RunInv(run, n);
    assert ObjectOk(run[n], o);
  }

  /** Every object has been given back to the system. */
  ghost predicate AllFreed(s: State) {
    forall o :: 0 <= o < |s.objects| ==> s.objects[o].phase == Gone || s.objects[o].phase == Cleaned
  }

  /**
   The pool is released at most once; it is about to be or has been released exactly when destroy is done and every
   object is freed; and after that nothing touches it any more.
   */
  lemma ReleasedOnce(run: seq<State>, n: nat)
    requires IsRun(run) && n < |run|
    ensures var s := run[n];
      && s.condemned + s.released <= 1
      && (s.condemned + s.released == 1 <==> s.owner == Finished && AllFreed(s))
      && (s.released == 1 ==> forall a :: !Enabled(s, a))
  {
    var s := run[n];
    RunInv(run, n);
    if s.owner == Finished {
      FinalCounter(s);
      NoneOut(s);
      if s.released == 1 {
        forall a
          ensures !Enabled(s, a)
        {
        }
      }
    }
  }

  lemma NoneOut(s: State)
    requires ListsOk(s) && s.owner == Finished
    ensures Sum(s.objects, Outstanding) == 0 <==> AllFreed(s)
  {
    if AllFreed(s) {
      SumZero(s.objects, Outstanding);
    } else {
      var o :| 0 <= o < |s.objects| && s.objects[o].phase != Gone && s.objects[o].phase != Cleaned;
      assert ObjectOk(s, o);
      SumAtLeast(s.objects, o, Outstanding);
    }
  }

  /** The private counter that destroy subtracts is the number of objects it did not free itself. */
  lemma SubtractsRest(run: seq<State>, n: nat)
    requires IsRun(run) && n < |run| && run[n].owner == Subtracting
    ensures run[n].privateCounter == Sum(run[n].objects, Outstanding) + Sum(run[n].objects, IsGone) >= 0
  {
    RunInv(run, n);
    FinalCounter(run[n]);
    SumNonNegative(run[n].objects, IsGone);
  }

  /**
   The owner follows only pointers to objects on the lists; in particular it finds the public list it goes to take.
   */
  lemma OwnerNeverStuck(run: seq<State>, n: nat)
    requires IsRun(run) && n < |run|
    ensures var s := run[n];
      && (s.owner == Resting ==> Enabled(s, TakePrivate) || Enabled(s, LookPublic))
      && (s.owner == Exchanging ==> Enabled(s, TakePublic))
      && (Cleaning(s.owner) ==> Enabled(s, CleanOne) || Enabled(s, CleanDone))
  {
    RunInv(run, n);
  }
}
