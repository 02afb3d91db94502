/**
 What an arena asks of the market: the request it keeps (arena::update_request, src/tbb/arena.cpp) and the
 deltas sent by advertise_new_work (src/tbb/arena.h) and out_of_work (src/tbb/arena.cpp) in any interleaving.
 */
module ArenaDemand {
  import opened Sums

  // ---------------------------------------------------------------- the request kept by an arena

  datatype Request = Request(maxNumWorkers: nat, mandatory: int, workers: int)

  function Clamp(x: int, lo: int, hi: int): int { if x < lo then lo else if x > hi then hi else x }

  function Updated(r: Request, mandatoryDelta: int, workersDelta: int): Request {
    r.(mandatory := r.mandatory + mandatoryDelta, workers := r.workers + workersDelta)
  }

  function MinWorkers(r: Request): nat { if r.mandatory > 0 then 1 else 0 }

  function MaxWorkers(r: Request): nat {
    Clamp(r.workers, 0, if MinWorkers(r) > 0 && r.maxNumWorkers == 0 then 1 else r.maxNumWorkers)
  }

  // ---------------------------------------------------------------- the threads that change it

  /** A thread inside advertise_new_work or out_of_work, with the flags it has flipped so far. */
  datatype Thread =
    | Idle
    | TestingMandatory                         // about to test_and_set my_mandatory_concurrency
    | TestingPool(mandatory: bool)             // about to test_and_set my_pool_state
    | Asking(mandatory: bool, workers: bool)   // about to send the request for workers
    | ClearingMandatory                        // about to clear my_mandatory_concurrency
    | ClearingPool(mandatory: bool)            // about to clear my_pool_state
    | Releasing(mandatory: bool, workers: bool) // about to send the release of workers

  datatype State = State(
    mandatory: bool,       // my_mandatory_concurrency is not UNSET
    pool: bool,            // my_pool_state is not UNSET
    threads: seq<Thread>,
    request: Request)      // what the market has been told

  datatype Step =
    | Advertise(i: nat, enqueued: bool) | TestMandatory(i: nat) | TestPool(i: nat) | Ask(i: nat)
    | OutOfWork(i: nat) | ClearMandatory(i: nat, cleared: bool) | ClearPool(i: nat, cleared: bool) | Release(i: nat)

  predicate Init(s: State) {
    && !s.mandatory && !s.pool && s.request.mandatory == 0 && s.request.workers == 0
    && forall t :: t in s.threads ==> t == Idle
  }

  predicate Enabled(s: State, a: Step) {
    && a.i < |s.threads|
    && match a
       case Advertise(i, _) => s.threads[i] == Idle
       case TestMandatory(i) => s.threads[i] == TestingMandatory
       case TestPool(i) => s.threads[i].TestingPool?
       case Ask(i) => s.threads[i].Asking?
       case OutOfWork(i) => s.threads[i] == Idle
       case ClearMandatory(i, cleared) => s.threads[i] == ClearingMandatory && (cleared ==> s.mandatory)
       case ClearPool(i, cleared) => s.threads[i].ClearingPool? && (cleared ==> s.pool)
       case Release(i) => s.threads[i].Releasing?
  }

  predicate Workerless(r: Request) { r.maxNumWorkers == 0 }

  function Apply(s: State, a: Step): State
    requires Enabled(s, a)
  {
    var t := s.threads[a.i];
    match a
    case Advertise(i, enqueued) =>
      s.(threads := s.threads[i := if enqueued then TestingMandatory else TestingPool(false)])
    case TestMandatory(i) => s.(mandatory := true, threads := s.threads[i := TestingPool(!s.mandatory)])
    case TestPool(i) => s.(pool := true, threads := s.threads[i := Asking(t.mandatory, !s.pool)])
    case Ask(i) =>
      var mandatoryDelta := if t.mandatory then 1 else 0;
      var workersDelta := if t.mandatory && Workerless(s.request) then 1
                          else if t.workers then s.request.maxNumWorkers else 0;
      s.(threads := s.threads[i := Idle], request := Updated(s.request, mandatoryDelta, workersDelta))
    case OutOfWork(i) => s.(threads := s.threads[i := ClearingMandatory])
    case ClearMandatory(i, cleared) =>
      s.(mandatory := s.mandatory && !cleared, threads := s.threads[i := ClearingPool(cleared)])
    case ClearPool(i, cleared) =>
      s.(pool := s.pool && !cleared, threads := s.threads[i := Releasing(t.mandatory, cleared)])
    case Release(i) =>
      var mandatoryDelta := if t.mandatory then -1 else 0;
      var workersDelta := if t.mandatory && Workerless(s.request) then -1
                          else if t.workers then 0 - s.request.maxNumWorkers else 0;
      s.(threads := s.threads[i := Idle], request := Updated(s.request, mandatoryDelta, workersDelta))
  }

  // ---------------------------------------------------------------- the ledger

  /** The mandatory delta a thread has yet to send. */
  function MandatoryDue(t: Thread): int {
    match t
    case TestingPool(m) => if m then 1 else 0
    case Asking(m, _) => if m then 1 else 0
    case ClearingPool(m) => if m then -1 else 0
    case Releasing(m, _) => if m then -1 else 0
    case _ => 0
  }

  /** The workers delta a thread has yet to send, for an arena with at most max workers. */
  function WorkersDue(max: nat): Thread -> int {
    (t: Thread) =>
      if max == 0 then MandatoryDue(t)
      else if t.Asking? && t.workers then max
      else if t.Releasing? && t.workers then 0 - max
      else 0
  }

  function MandatoryWanted(s: State): int { if s.mandatory then 1 else 0 }

  function WorkersWanted(s: State): int {
    if Workerless(s.request) then MandatoryWanted(s) else if s.pool then s.request.maxNumWorkers else 0
  }

  ghost predicate Inv(s: State) {
    && s.request.mandatory + Sum(s.threads, MandatoryDue) == MandatoryWanted(s)
    && s.request.workers + Sum(s.threads, WorkersDue(s.request.maxNumWorkers)) == WorkersWanted(s)
  }

  lemma MandatoryStep(s: State, a: Step)
    requires Enabled(s, a)
    ensures var s' := Apply(s, a);
      s'.request.mandatory + MandatoryDue(s'.threads[a.i]) - MandatoryWanted(s') ==
      s.request.mandatory + MandatoryDue(s.threads[a.i]) - MandatoryWanted(s)
  {
  }

  lemma WorkersStep(s: State, a: Step)
    requires Enabled(s, a)
    ensures var s', due := Apply(s, a), WorkersDue(s.request.maxNumWorkers);
      && s'.request.maxNumWorkers == s.request.maxNumWorkers
      && s'.request.workers + due(s'.threads[a.i]) - WorkersWanted(s') ==
        s.request.workers + due(s.threads[a.i]) - WorkersWanted(s)
  {
  }

  lemma StepKeeps(s: State, a: Step)
    requires Inv(s) && Enabled(s, a)
    ensures Inv(Apply(s, a)) && Apply(s, a).request.maxNumWorkers == s.request.maxNumWorkers
  {
    var s', max := Apply(s, a), s.request.maxNumWorkers;
    MandatoryStep(s, a);
    WorkersStep(s, a);
    assert s'.threads == s.threads[a.i := s'.threads[a.i]];
    SumUpdate(s.threads, a.i, s'.threads[a.i], MandatoryDue);
    SumUpdate(s.threads, a.i, s'.threads[a.i], WorkersDue(max));
  }

  ghost predicate Next(s: State, s': State) {
    exists a: Step :: Enabled(s, a) && Apply(s, a) == s'
  }

  ghost predicate IsRun(run: seq<State>) {
    && run != []
    && Init(run[0])
    && forall i :: 0 <= i < |run| - 1 ==> NextAt(run, i)
  }

  ghost predicate NextAt(run: seq<State>, i: nat) { i + 1 < |run| && Next(run[i], run[i + 1]) }

  /** In every interleaving, what was delivered plus what is in flight is what the two flags stand for. */
  lemma {:induction false} LedgerBalances(run: seq<State>, n: nat)
    requires IsRun(run) && n < |run|
    ensures run[n].request.mandatory + Sum(run[n].threads, MandatoryDue) == MandatoryWanted(run[n])
    ensures run[n].request.workers + Sum(run[n].threads, WorkersDue(run[n].request.maxNumWorkers)) ==
      WorkersWanted(run[n])
    decreases n
  {
    if n == 0 {
      SumZero(run[0].threads, MandatoryDue);
      SumZero(run[0].threads, WorkersDue(run[0].request.maxNumWorkers));
    } else {
      LedgerBalances(run, n - 1);
      assert NextAt(run, n - 1);
      var a :| Enabled(run[n - 1], a) && Apply(run[n - 1], a) == run[n];
      StepKeeps(run[n - 1], a);
    }
  }

  /** With nothing in flight the market is told exactly what the flags say, and the clamps change nothing. */
  lemma QuiescentRequest(run: seq<State>, n: nat)
    requires IsRun(run) && n < |run| && forall t :: t in run[n].threads ==> t == Idle
    ensures MinWorkers(run[n].request) == MandatoryWanted(run[n]) == run[n].request.mandatory
    ensures MaxWorkers(run[n].request) == WorkersWanted(run[n]) == run[n].request.workers
  {
    LedgerBalances(run, n);
    SumZero(run[n].threads, MandatoryDue);
    SumZero(run[n].threads, WorkersDue(run[n].request.maxNumWorkers));
  }

  /**
   While deltas are in flight an arena can have mandatory concurrency and no workers: one thread has raised
   my_pool_state and not yet sent its workers when another sends its mandatory request.
   */
  lemma MandatoryAhead() returns (run: seq<State>)
    ensures IsRun(run)
    ensures var s := run[|run| - 1]; s.mandatory && s.pool && MinWorkers(s.request) == 1 && MaxWorkers(s.request) == 0
  {
    var s0 := State(false, false, [Idle, Idle], Request(2, 0, 0));
    var s1 := Apply(s0, Advertise(0, false));
    var s2 := Apply(s1, TestPool(0));
    var s3 := Apply(s2, Advertise(1, true));
    var s4 := Apply(s3, TestMandatory(1));
    var s5 := Apply(s4, TestPool(1));
    var s6 := Apply(s5, Ask(1));
    run := [s0, s1, s2, s3, s4, s5, s6];
    assert Next(s0, s1) && Next(s1, s2) && Next(s2, s3) && Next(s3, s4) && Next(s4, s5) && Next(s5, s6);
  }

  /** With nothing in flight an arena that needs a worker asks for none exactly if only its mandatory flag is up. */
  lemma ShortExactlyWithoutPool(run: seq<State>, n: nat)
    requires IsRun(run) && n < |run| && forall t :: t in run[n].threads ==> t == Idle
    ensures (MinWorkers(run[n].request) > 0 ==> MaxWorkers(run[n].request) > 0) <==>
      !(run[n].mandatory && !run[n].pool && run[n].request.maxNumWorkers > 0)
  {
    QuiescentRequest(run, n);
  }

  /** my_pool_state is up as long as my_mandatory_concurrency is. */
  predicate PoolUp(s: State) { s.mandatory ==> s.pool }

  /** A step takes the pool flag from under the mandatory one exactly if it clears it, or raises the other one first. */
  lemma PoolUpKept(s: State, a: Step)
    requires Enabled(s, a) && PoolUp(s)
    ensures PoolUp(Apply(s, a)) <==> !(a.ClearPool? && a.cleared && s.mandatory) && !(a.TestMandatory? && !s.pool)
  {
  }

  /** The k-th state of a run of one thread that asks for both and gives back the workers only. */
  function Behind(k: nat): State {
    var none, both := Request(2, 0, 0), Request(2, 1, 2);
    match k
    case 0 => State(false, false, [Idle], none)
    case 1 => State(false, false, [TestingMandatory], none)
    case 2 => State(true, false, [TestingPool(true)], none)
    case 3 => State(true, true, [Asking(true, true)], none)
    case 4 => State(true, true, [Idle], both)
    case 5 => State(true, true, [ClearingMandatory], both)
    case 6 => State(true, true, [ClearingPool(false)], both)
    case 7 => State(true, false, [Releasing(false, true)], both)
    case _ => State(true, false, [Idle], Request(2, 1, 0))
  }

  /** The step it takes from there. */
  function BehindStep(k: nat): Step {
    match k
    case 0 => Advertise(0, true)
    case 1 => TestMandatory(0)
    case 2 => TestPool(0)
    case 3 => Ask(0)
    case 4 => OutOfWork(0)
    case 5 => ClearMandatory(0, false)
    case 6 => ClearPool(0, true)
    case _ => Release(0)
  }

  lemma Asks(k: nat)
    requires k < 4
    ensures Enabled(Behind(k), BehindStep(k)) && Apply(Behind(k), BehindStep(k)) == Behind(k + 1)
  {
  }

  lemma GivesBack(k: nat)
    requires 4 <= k < 8
    ensures Enabled(Behind(k), BehindStep(k)) && Apply(Behind(k), BehindStep(k)) == Behind(k + 1)
  {
  }

  lemma BehindNext(k: nat)
    requires k < 8
    ensures Next(Behind(k), Behind(k + 1))
  {
    if k < 4 {
      Asks(k);
    } else {
      GivesBack(k);
    }
    Takes(Behind(k), BehindStep(k), Behind(k + 1));
  }

  lemma Takes(s: State, a: Step, s': State)
    requires Enabled(s, a) && Apply(s, a) == s'
    ensures Next(s, s')
  {
  }

  /**
   The invariant that out_of_work is after fails for good: a thread finds enqueued tasks and leaves the mandatory flag
   up, then finds none left and clears the pool flag. With nothing in flight the arena needs a worker and asks for none.
   */
  lemma MandatoryLeftBehind() returns (run: seq<State>)
    ensures IsRun(run)
    ensures var s := run[|run| - 1];
      && (forall t :: t in s.threads ==> t == Idle) && !PoolUp(s)
      && MinWorkers(s.request) == 1 && MaxWorkers(s.request) == 0
  {
    run := seq(9, k requires 0 <= k < 9 => Behind(k));
    forall k | 0 <= k < 8
      ensures NextAt(run, k)
    {
      BehindNext(k);
    }
  }
}
