/**
 The three-state flag of an arena (class atomic_flag in src/tbb/arena.h). Producers add work and then run
 test_and_set; clearers run try_clear_if with a predicate that looks for work. A step is one atomic access.
 */
module AtomicFlag {

  /** my_state; the busy value is the address of a local of the clearer, so it names the clearer. */
  datatype Word = Unset | Set | Busy(clearer: nat)

  /** A call of test_and_set on behalf of one unit of work. */
  datatype Producer =
    | Adding                 // the work is not there yet
    | Loading                // the work is there; about to load my_state
    | Interrupting(seen: nat) // loaded a busy value; about to exchange it for SET
    | Setting                // loaded or observed UNSET; about to exchange UNSET for SET
    | Finished(result: bool)

  /** A call of try_clear_if. Its predicate is not a snapshot: it looks at the work there was when it began. */
  datatype Clearer =
    | Away
    | Clearing                    // saw SET; about to exchange it for its busy value
    | Looking                     // about to begin the predicate
    | Scanning(found: set<nat>)   // the predicate is running; found is the work there was when it began
    | Committing                  // the predicate held; about to exchange busy for UNSET
    | Reverting                   // the predicate failed; about to exchange busy for SET

  datatype State = State(
    word: Word,
    producers: seq<Producer>,   // producer i adds unit of work i
    clearers: seq<Clearer>,
    work: set<nat>,             // units of work that are there
    sets: nat,                  // calls of test_and_set that returned true
    clears: nat)                // calls of try_clear_if that returned true

  datatype Step =
    | Produce(i: nat) | Load(i: nat) | Interrupt(i: nat) | SetFlag(i: nat)
    | Consume(x: nat)
    | BeginClear(c: nat) | MarkBusy(c: nat) | BeginLook(c: nat) | EndLook(c: nat, empty: bool) | Commit(c: nat)
    | Revert(c: nat)

  predicate Init(s: State) {
    && s.word == Unset && s.work == {} && s.sets == 0 && s.clears == 0
    && (forall p :: p in s.producers ==> p == Adding)
    && (forall c :: c in s.clearers ==> c == Away)
  }

  predicate Enabled(s: State, a: Step) {
    match a
    case Produce(i) => i < |s.producers| && s.producers[i] == Adding
    case Load(i) => i < |s.producers| && s.producers[i] == Loading
    case Interrupt(i) => i < |s.producers| && s.producers[i].Interrupting?
    case SetFlag(i) => i < |s.producers| && s.producers[i] == Setting
    case Consume(x) => x in s.work
    case BeginClear(c) => c < |s.clearers| && s.clearers[c] == Away
    case MarkBusy(c) => c < |s.clearers| && s.clearers[c] == Clearing
    case BeginLook(c) => c < |s.clearers| && s.clearers[c] == Looking
    case EndLook(c, empty) =>
      // The predicate may overlook work that came or went while it ran, but not work that was there all the time.
      c < |s.clearers| && s.clearers[c].Scanning? && (empty ==> s.clearers[c].found !! s.work)
    case Commit(c) => c < |s.clearers| && s.clearers[c] == Committing
    case Revert(c) => c < |s.clearers| && s.clearers[c] == Reverting
  }

  function Apply(s: State, a: Step): State
    requires Enabled(s, a)
  {
    match a
    case Produce(i) => s.(work := s.work + {i}, producers := s.producers[i := Loading])
    case Load(i) =>
      var p := match s.word
               case Set => Finished(false)
               case Busy(c) => Interrupting(c)
               case Unset => Setting;
      s.(producers := s.producers[i := p])
    case Interrupt(i) =>
      if s.word == Busy(s.producers[i].seen) then
        s.(word := Set, producers := s.producers[i := Finished(false)])      // interrupted the clear transaction
      else if s.word != Unset then
        s.(producers := s.producers[i := Finished(false)])                   // lost our epoch
      else
        s.(producers := s.producers[i := Setting])                           // too late, but in the same epoch
    case SetFlag(i) =>
      if s.word == Unset then s.(word := Set, producers := s.producers[i := Finished(true)], sets := s.sets + 1)
      else s.(producers := s.producers[i := Finished(false)])
    case Consume(x) => s.(work := s.work - {x})
    case BeginClear(c) => if s.word == Set then s.(clearers := s.clearers[c := Clearing]) else s
    case MarkBusy(c) =>
      if s.word == Set then s.(word := Busy(c), clearers := s.clearers[c := Looking])
      else s.(clearers := s.clearers[c := Away])
    case BeginLook(c) => s.(clearers := s.clearers[c := Scanning(s.work)])
    case EndLook(c, empty) => s.(clearers := s.clearers[c := if empty then Committing else Reverting])
    case Commit(c) =>
      if s.word == Busy(c) then s.(word := Unset, clearers := s.clearers[c := Away], clears := s.clears + 1)
      else s.(clearers := s.clearers[c := Away])
    case Revert(c) =>
      s.(word := if s.word == Busy(c) then Set else s.word, clearers := s.clearers[c := Away])
  }

  // ---------------------------------------------------------------- invariant

  /** If the flag is in the middle of a clear, that clear will notice work x as long as x is there. */
  predicate Guarded(s: State, x: nat) {
    s.word.Busy? ==> s.word.clearer < |s.clearers| && WillNotice(s.clearers[s.word.clearer], x)
  }

  predicate WillNotice(c: Clearer, x: nat) {
    c == Looking || c == Reverting || (c.Scanning? && x in c.found)
  }

  predicate InTransaction(c: Clearer) { c == Looking || c.Scanning? || c == Committing || c == Reverting }

  predicate Covered(s: State, i: nat)
    requires i < |s.producers|
  {
    match s.producers[i]
    case Adding => i !in s.work
    case Loading => true
    case Interrupting(c) => s.word != Busy(c) ==> Guarded(s, i)
    case Setting => Guarded(s, i)
    case Finished(_) => s.word != Unset && Guarded(s, i)
  }

  ghost predicate Inv(s: State) {
    && (s.word.Busy? ==> s.word.clearer < |s.clearers| && InTransaction(s.clearers[s.word.clearer]))
    && (forall x :: x in s.work ==> x < |s.producers|)
    && (forall i :: i in s.work ==> Covered(s, i))
    && (forall i :: 0 <= i < |s.producers| && s.producers[i] == Adding ==> i !in s.work)
    && s.sets == s.clears + (if s.word == Unset then 0 else 1)
  }

  /** A call returns true exactly when it flips the flag between UNSET and not UNSET. */
  lemma OnlyWinnersFlip(s: State, a: Step)
    requires Inv(s) && Enabled(s, a)
    ensures var s' := Apply(s, a);
            && (s'.sets > s.sets <==> s.word == Unset && s'.word != Unset)
            && (s'.clears > s.clears <==> s.word != Unset && s'.word == Unset)
  {
    StepKeeps(s, a);
  }

  lemma StepKeeps(s: State, a: Step)
    requires Inv(s) && Enabled(s, a)
    ensures Inv(Apply(s, a))
  {
    var s' := Apply(s, a);
    forall i | i in s'.work
      ensures i < |s'.producers| && Covered(s', i)
    {
      assert i in s.work ==> Covered(s, i);
    }
  }

  ghost predicate Next(s: State, s': State) {
    exists a: Step :: Enabled(s, a) && Apply(s, a) == s'
  }

  /** A run has any number of producers, consumers and clearers. */
  ghost predicate IsRun(run: seq<State>) {
    && run != []
    && Init(run[0])
    && forall i :: 0 <= i < |run| - 1 ==> NextAt(run, i)
  }

  ghost predicate NextAt(run: seq<State>, i: nat) { i + 1 < |run| && Next(run[i], run[i + 1]) }

  lemma {:induction false} RunInv(run: seq<State>, n: nat)
    requires IsRun(run) && n < |run|
    ensures Inv(run[n])
    decreases n
  {
    if n > 0 {
      RunInv(run, n - 1);
      assert NextAt(run, n - 1);
      var a :| Enabled(run[n - 1], a) && Apply(run[n - 1], a) == run[n];
      StepKeeps(run[n - 1], a);
    }
  }

  /**
   No lost work: while the flag is UNSET, whoever produced the work that is left has not finished its test_and_set.
   */
  lemma NoLostWork(run: seq<State>, n: nat, x: nat)
    requires IsRun(run) && n < |run| && run[n].word == Unset && x in run[n].work
    ensures x < |run[n].producers|
    ensures run[n].producers[x] in {Loading, Setting} || run[n].producers[x].Interrupting?
  {
    RunInv(run, n);
    assert Covered(run[n], x);
  }

  /** Successful sets and clears alternate, so their difference says whether the flag is up. */
  lemma SetsAndClears(run: seq<State>, n: nat)
    requires IsRun(run) && n < |run|
    ensures run[n].sets - run[n].clears == if run[n].word == Unset then 0 else 1
  {
    RunInv(run, n);
  }

  /** When nobody is in the middle of a call, the flag is up as long as there is work. */
  lemma QuiescentFlag(run: seq<State>, n: nat)
    requires IsRun(run) && n < |run|
    requires forall i :: 0 <= i < |run[n].producers| ==> run[n].producers[i] == Adding || run[n].producers[i].Finished?
    requires forall c :: 0 <= c < |run[n].clearers| ==> run[n].clearers[c] == Away
    ensures run[n].work != {} ==> run[n].word == Set
  {
    RunInv(run, n);
    if x :| x in run[n].work {
      assert Covered(run[n], x);
    }
  }
}
