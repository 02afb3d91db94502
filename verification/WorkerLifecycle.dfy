/**
 The life cycle of the pool's workers (private_worker::run, wake_or_launch and start_shutdown, and
 private_server::request_close_connection and remove_server_ref, in src/tbb/private_server.cpp). A step is one atomic
 access. Any worker inside its loop, and before the close any outside thread, may call wake_or_launch on any worker.
 */
module WorkerLifecycle {
  import opened Wrappers
  import opened Sums

  datatype WorkerState = Init | Starting | Normal | Quit

  /** Where the thread of a worker is. */
  datatype Thread =
    | NoThread
    | InLoop
    | Leaving              // saw the quit state, about to add its unit to my_slack
    | Dropping             // about to call remove_server_ref
    | Gone

  /** A call of wake_or_launch on worker w. */
  datatype Call =
    | Idle
    | Load(w: nat)         // about to load my_state
    | Notify(w: nat)       // about to notify the thread monitor
    | CasInit(w: nat)      // about to try init -> starting
    | Launch(w: nat)       // about to create the thread
    | SetHandle(w: nat)    // about to store my_handle
    | CasNormal(w: nat)    // about to try starting -> normal
    | Release(w: nat)      // lost against the quit state, about to release my_handle

  datatype Caller = Worker(i: nat) | Outside(k: nat)

  /** A thread launching the worker has won the step from init and is at the call of that name. */
  datatype Stage = Unclaimed | Claimed | Created | Stored | Losing | Finished

  datatype Record = Record(
    state: WorkerState,              // my_state
    thread: Thread,
    call: Call,
    handle: bool,                    // my_handle is set
    released: nat,                   // history: how often my_handle was released
    dropped: nat,                    // history: server references dropped on behalf of this worker
    stage: Stage,                    // history: progress of the launch
    launcher: Option<Caller>,        // history: who launches or launched it
    born: nat,                       // history: when its thread was created
    quitFrom: Option<WorkerState>)   // history: the state the exchange in start_shutdown returned

  datatype Closer =
    | Open
    | Shut(i: nat)                   // about to exchange the state of worker i, or done with all of them
    | After(i: nat, prev: WorkerState)
    | Join(i: nat)                   // about to release the handle of worker i
    | Closed

  datatype State = State(
    refs: int,                       // my_ref_count
    condemned: nat,                  // threads that brought it to 0 and are about to destroy the server
    destroyed: nat,                  // history: how often the server was destroyed
    joins: bool,                     // releasing a handle waits for its thread
    workers: seq<Record>,
    outside: seq<Call>,
    closer: Closer,
    clock: nat)

  datatype Step =
    | Begin(c: Caller, w: nat) | Advance(c: Caller)
    | Leave(i: nat) | AddSlack(i: nat) | DropRef(i: nat)
    | BeginClose | Close | Destroy

  predicate Initial(s: State) {
    && s.refs == |s.workers| + 1 && s.condemned == 0 && s.destroyed == 0 && s.closer == Open
    && (forall i :: 0 <= i < |s.workers| ==>
      s.workers[i] == Record(Init, NoThread, Idle, false, 0, 0, Unclaimed, None, 0, None))
    && (forall k :: 0 <= k < |s.outside| ==> s.outside[k] == Idle)
  }

  predicate Exists(s: State, c: Caller) {
    match c
    case Worker(i) => i < |s.workers|
    case Outside(k) => k < |s.outside|
  }

  function CallOf(s: State, c: Caller): Call
    requires Exists(s, c)
  {
    match c
    case Worker(i) => s.workers[i].call
    case Outside(k) => s.outside[k]
  }

  function SetCall(s: State, c: Caller, call: Call): State
    requires Exists(s, c)
  {
    match c
    case Worker(i) => s.(workers := s.workers[i := s.workers[i].(call := call)])
    case Outside(k) => s.(outside := s.outside[k := call])
  }

  predicate ThreadGone(s: State, w: nat) { w < |s.workers| && s.workers[w].thread == Gone }

  predicate Enabled(s: State, a: Step) {
    match a
    case Begin(c, w) =>
      && Exists(s, c) && CallOf(s, c) == Idle && w < |s.workers|
      && (if c.Worker? then s.workers[c.i].thread == InLoop else s.closer == Open)
    case Advance(c) =>
      && Exists(s, c) && CallOf(s, c) != Idle && CallOf(s, c).w < |s.workers|
      && (CallOf(s, c).Release? && s.joins ==> ThreadGone(s, CallOf(s, c).w))
    case Leave(i) =>
      i < |s.workers| && s.workers[i].thread == InLoop && s.workers[i].call == Idle && s.workers[i].state == Quit
    case AddSlack(i) => i < |s.workers| && s.workers[i].thread == Leaving
    case DropRef(i) => i < |s.workers| && s.workers[i].thread == Dropping
    case BeginClose => s.closer == Open && forall k :: 0 <= k < |s.outside| ==> s.outside[k] == Idle
    case Close =>
      match s.closer {
        case Shut(i) => i <= |s.workers|
        case After(i, _) => i < |s.workers|
        case Join(i) => i < |s.workers| && (s.joins ==> ThreadGone(s, i))
        case _ => false
      }
    case Destroy => s.condemned > 0
  }

  /** remove_server_ref. */
  function RemoveRef(s: State): State {
    s.(refs := s.refs - 1, condemned := if s.refs == 1 then s.condemned + 1 else s.condemned)
  }

  /** What a step of wake_or_launch by c does to the record of the worker called. */
  function NextRecord(r: Record, call: Call, c: Caller, clock: nat): Record {
    match call
    case CasInit(_) => if r.state == Init then r.(state := Starting, stage := Claimed, launcher := Some(c)) else r
    case Launch(_) => r.(thread := InLoop, stage := Created, born := clock)
    case SetHandle(_) => r.(handle := true, stage := Stored)
    case CasNormal(_) => if r.state == Starting then r.(state := Normal, stage := Finished) else r.(stage := Losing)
    case Release(_) => r.(released := r.released + 1, stage := Finished)
    case _ => r
  }

  /** Where the call stands after the step. */
  function NextCall(r: Record, call: Call): Call {
    match call
    case Load(w) => (match r.state case Init => CasInit(w) case Quit => Idle case _ => Notify(w))
    case CasInit(w) => if r.state == Init then Launch(w) else Idle
    case Launch(w) => SetHandle(w)
    case SetHandle(w) => CasNormal(w)
    case CasNormal(w) => if r.state == Starting then Idle else Release(w)
    case _ => Idle
  }

  function AdvanceCall(s: State, c: Caller): State
    requires Enabled(s, Advance(c))
  {
    var call := CallOf(s, c);
    var r := s.workers[call.w];
    SetCall(s.(workers := s.workers[call.w := NextRecord(r, call, c, s.clock + 1)], clock := s.clock + 1), c,
      NextCall(r, call))
  }

  function CloseStep(s: State): State
    requires Enabled(s, Close)
  {
    match s.closer
    case Shut(i) =>
      if i == |s.workers| then RemoveRef(s).(closer := Closed)
      else
        var r := s.workers[i];
        s.(workers := s.workers[i := r.(state := Quit, quitFrom := Some(r.state))], closer := After(i, r.state))
    case After(i, prev) =>
      var r := s.workers[i];
      if prev == Init then RemoveRef(s).(workers := s.workers[i := r.(dropped := r.dropped + 1)], closer := Shut(i + 1))
      else s.(closer := if prev == Normal then Join(i) else Shut(i + 1))
    case Join(i) =>
      var r := s.workers[i];
      s.(workers := s.workers[i := r.(released := r.released + 1)], closer := Shut(i + 1))
  }

  function Apply(s: State, a: Step): State
    requires Enabled(s, a)
  {
    match a
    case Begin(c, w) => SetCall(s, c, Load(w))
    case Advance(c) => AdvanceCall(s, c)
    case Leave(i) => s.(workers := s.workers[i := s.workers[i].(thread := Leaving)])
    case AddSlack(i) => s.(workers := s.workers[i := s.workers[i].(thread := Dropping)])
    case DropRef(i) =>
      var r := s.workers[i];
      RemoveRef(s).(workers := s.workers[i := r.(thread := Gone, dropped := r.dropped + 1)])
    case BeginClose => s.(closer := Shut(0))
    case Close => CloseStep(s)
    case Destroy => s.(condemned := s.condemned - 1, destroyed := s.destroyed + 1)
  }

  // ---------------------------------------------------------------- invariant

  /** The call the launcher of a worker is at. */
  function CallAt(stage: Stage, w: nat): Call {
    match stage
    case Claimed => Launch(w)
    case Created => SetHandle(w)
    case Stored => CasNormal(w)
    case Losing => Release(w)
    case _ => Idle
  }

  predicate Launching(c: Call) { c.Launch? || c.SetHandle? || c.CasNormal? || c.Release? }

  /** How many workers the closing thread has exchanged. */
  function Exchanged(s: State): nat {
    match s.closer
    case Open => 0
    case Shut(i) => i
    case After(i, _) => i + 1
    case Join(i) => i + 1
    case Closed => |s.workers|
  }

  predicate StateOk(r: Record) {
    match r.stage
    case Unclaimed => r.state == Init || r.quitFrom == Some(Init)
    case Finished => r.state == Normal || r.quitFrom == Some(Normal) || r.quitFrom == Some(Starting)
    case Losing => r.quitFrom == Some(Starting)
    case _ => r.state == Starting || r.quitFrom == Some(Starting)
  }

  /** How often the handle has been released. */
  predicate ReleasedOk(closer: Closer, w: nat, r: Record) {
    r.released ==
      if r.stage != Finished || r.state == Normal then 0
      else if r.quitFrom == Some(Normal) && (closer == After(w, Normal) || closer == Join(w)) then 0
      else 1
  }

  /** How many references have been dropped for the worker. */
  predicate DroppedOk(closer: Closer, w: nat, r: Record) {
    r.dropped ==
      if r.stage == Unclaimed then (if r.state == Quit && closer != After(w, Init) then 1 else 0)
      else if r.thread == Gone then 1
      else 0
  }

  predicate QuitOk(closer: Closer, exchanged: nat, w: nat, r: Record) {
    && (r.quitFrom.Some? <==> r.state == Quit) && (r.state == Quit <==> w < exchanged)
    && r.quitFrom != Some(Quit)
    && (closer.After? && closer.i == w ==> r.quitFrom == Some(closer.prev))
    && (closer.Join? && closer.i == w ==> r.quitFrom == Some(Normal))
  }

  /** What holds of the record of a worker on its own. */
  predicate RecordOk(closer: Closer, exchanged: nat, w: nat, r: Record) {
    && QuitOk(closer, exchanged, w, r)
    && StateOk(r)
    && (r.thread == NoThread <==> r.stage == Unclaimed || r.stage == Claimed)
    && (r.thread == Leaving || r.thread == Dropping || r.thread == Gone ==> r.state == Quit)
    && (r.thread != InLoop ==> r.call == Idle)
    && (r.handle <==> r.stage == Stored || r.stage == Losing || r.stage == Finished)
    && ReleasedOk(closer, w, r)
    && DroppedOk(closer, w, r)
    && (r.stage == Unclaimed <==> r.launcher == None)
  }

  /** What holds between a worker and its launcher. */
  predicate LinkOk(s: State, w: nat)
    requires w < |s.workers|
  {
    var r := s.workers[w];
    && (r.thread != NoThread ==> 0 < r.born <= s.clock)
    && (r.launcher.Some? ==>
          && Exists(s, r.launcher.value)
          && (r.stage != Finished ==> CallOf(s, r.launcher.value) == CallAt(r.stage, w))
          && (r.launcher.value.Worker? ==> LaunchedBy(s.workers[r.launcher.value.i], r)))
  }

  predicate LaunchedBy(l: Record, r: Record) {
    l.thread != NoThread && (r.thread != NoThread ==> l.born < r.born)
  }

  predicate WorkerOk(s: State, w: nat)
    requires w < |s.workers|
  {
    RecordOk(s.closer, Exchanged(s), w, s.workers[w]) && LinkOk(s, w)
  }

  predicate CallerOk(s: State, c: Caller)
    requires Exists(s, c)
  {
    var call := CallOf(s, c);
    && (call != Idle ==> call.w < |s.workers|)
    && (Launching(call) ==> s.workers[call.w].launcher == Some(c) && CallAt(s.workers[call.w].stage, call.w) == call)
    && (c.Outside? && s.closer != Open ==> call == Idle)
  }

  function Held(r: Record): int { 1 - r.dropped }

  ghost predicate Shape(s: State) {
    && Exchanged(s) <= |s.workers|
    && (forall w :: 0 <= w < |s.workers| ==> WorkerOk(s, w))
    && (forall c :: Exists(s, c) ==> CallerOk(s, c))
  }

  ghost predicate Counted(s: State) {
    && s.refs == Sum(s.workers, Held) + (if s.closer == Closed then 0 else 1)
    && s.condemned + s.destroyed == (if s.refs == 0 then 1 else 0)
  }

  ghost predicate Inv(s: State) { Shape(s) && Counted(s) }

  // ---------------------------------------------------------------- one call of wake_or_launch

  /** The call is where the worker's record says. */
  predicate Agrees(r: Record, call: Call, c: Caller) {
    call != Idle && (Launching(call) ==> r.launcher == Some(c) && CallAt(r.stage, call.w) == call)
  }

  lemma RecordStep(closer: Closer, exchanged: nat, w: nat, r: Record, call: Call, c: Caller, clock: nat)
    requires RecordOk(closer, exchanged, w, r) && Agrees(r, call, c)
    ensures RecordOk(closer, exchanged, w, NextRecord(r, call, c, clock))
  {
  }

  lemma RecordCall(closer: Closer, exchanged: nat, w: nat, r: Record, call: Call)
    requires RecordOk(closer, exchanged, w, r) && r.thread == InLoop
    ensures RecordOk(closer, exchanged, w, r.(call := call))
  {
  }

  /** The record of worker x after a step of c, but for its own call. */
  function Touched(s: State, c: Caller, x: nat): Record
    requires Enabled(s, Advance(c)) && x < |s.workers|
  {
    var call := CallOf(s, c);
    if x == call.w then NextRecord(s.workers[x], call, c, s.clock + 1) else s.workers[x]
  }

  lemma CallEffect(s: State, c: Caller, x: nat)
    requires Enabled(s, Advance(c)) && x < |s.workers|
    ensures var s', call := AdvanceCall(s, c), CallOf(s, c);
      && s'.closer == s.closer && |s'.workers| == |s.workers| && |s'.outside| == |s.outside| && s'.clock == s.clock + 1
      && s'.workers[x] == if c == Worker(x) then Touched(s, c, x).(call := NextCall(s.workers[call.w], call))
        else Touched(s, c, x)
  {
  }

  lemma TouchedOk(s: State, c: Caller, x: nat)
    requires Enabled(s, Advance(c)) && x < |s.workers| && CallerOk(s, c)
    requires RecordOk(s.closer, Exchanged(s), x, s.workers[x])
    ensures RecordOk(s.closer, Exchanged(s), x, Touched(s, c, x))
    ensures c == Worker(x) ==> Touched(s, c, x).thread == InLoop
  {
    var call := CallOf(s, c);
    if x == call.w {
      RecordStep(s.closer, Exchanged(s), x, s.workers[x], call, c, s.clock + 1);
    }
  }

  lemma CallRecord(s: State, c: Caller, x: nat)
    requires Enabled(s, Advance(c)) && x < |s.workers| && CallerOk(s, c)
    requires RecordOk(s.closer, Exchanged(s), x, s.workers[x])
    ensures var s' := AdvanceCall(s, c); RecordOk(s'.closer, Exchanged(s'), x, s'.workers[x])
  {
    var call := CallOf(s, c);
    CallEffect(s, c, x);
    TouchedOk(s, c, x);
    if c == Worker(x) {
      RecordCall(s.closer, Exchanged(s), x, Touched(s, c, x), NextCall(s.workers[call.w], call));
    }
  }

  lemma CallOfAfter(s: State, c: Caller, d: Caller)
    requires Enabled(s, Advance(c)) && Exists(s, d)
    ensures var s', call := AdvanceCall(s, c), CallOf(s, c);
      Exists(s', d) && CallOf(s', d) == if d == c then NextCall(s.workers[call.w], call) else CallOf(s, d)
  {
    if d.Worker? {
      CallEffect(s, c, d.i);
    }
  }

  /** The launcher is at the call its worker's stage says. */
  lemma CallStage(s: State, c: Caller, x: nat)
    requires Enabled(s, Advance(c)) && x < |s.workers| && CallerOk(s, c) && WorkerOk(s, x)
    ensures var r, call := Touched(s, c, x), CallOf(s, c);
      r.launcher.Some? ==>
        var next := if r.launcher.value == c then NextCall(s.workers[call.w], call) else CallOf(s, r.launcher.value);
        Exists(s, r.launcher.value) && (r.stage != Finished ==> CallAt(r.stage, x) == next)
  {
  }

  lemma CallBorn(s: State, c: Caller, x: nat, l: nat)
    requires Enabled(s, Advance(c)) && x < |s.workers| && l < |s.workers| && CallerOk(s, c)
    requires WorkerOk(s, x) && WorkerOk(s, l) && Touched(s, c, x).launcher == Some(Worker(l))
    ensures LaunchedBy(Touched(s, c, l), Touched(s, c, x))
  {
  }

  lemma CallLink(s: State, c: Caller, x: nat)
    requires Shape(s) && Enabled(s, Advance(c)) && x < |s.workers|
    ensures LinkOk(AdvanceCall(s, c), x)
  {
    var r := Touched(s, c, x);
    assert CallerOk(s, c) && WorkerOk(s, x);
    CallEffect(s, c, x);
    if r.launcher.Some? {
      assert r.launcher.value.Worker? && r.launcher.value.i < |s.workers| ==> WorkerOk(s, r.launcher.value.i);
      LauncherLink(s, c, x);
    }
  }

  lemma LauncherLink(s: State, c: Caller, x: nat)
    requires Enabled(s, Advance(c)) && x < |s.workers| && CallerOk(s, c) && WorkerOk(s, x)
    requires Touched(s, c, x).launcher.Some?
    requires var l := Touched(s, c, x).launcher.value; l.Worker? && l.i < |s.workers| ==> WorkerOk(s, l.i)
    ensures LinkOk(AdvanceCall(s, c), x)
  {
    var l := Touched(s, c, x).launcher.value;
    CallEffect(s, c, x);
    CallStage(s, c, x);
    CallOfAfter(s, c, l);
    if l.Worker? {
      CallEffect(s, c, l.i);
      CallBorn(s, c, x, l.i);
    }
  }

  lemma CallCaller(s: State, c: Caller, d: Caller)
    requires Enabled(s, Advance(c)) && Exists(s, d) && CallerOk(s, c) && CallerOk(s, d)
    requires RecordOk(s.closer, Exchanged(s), CallOf(s, c).w, s.workers[CallOf(s, c).w])
    ensures CallerOk(AdvanceCall(s, c), d)
  {
    var call := CallOf(s, c);
    CallOfAfter(s, c, d);
    CallEffect(s, c, call.w);
    if d == c {
      OwnCall(s, c);
    } else if Launching(CallOf(s, d)) {
      CallEffect(s, c, CallOf(s, d).w);
    }
  }

  /** The call of c agrees with the record it has just changed. */
  lemma OwnCall(s: State, c: Caller)
    requires Enabled(s, Advance(c)) && CallerOk(s, c)
    requires RecordOk(s.closer, Exchanged(s), CallOf(s, c).w, s.workers[CallOf(s, c).w])
    ensures var w, call := CallOf(s, c).w, NextCall(s.workers[CallOf(s, c).w], CallOf(s, c));
      && (call != Idle ==> call.w == w)
      && (Launching(call) ==> Touched(s, c, w).launcher == Some(c) && CallAt(Touched(s, c, w).stage, w) == call)
  {
  }

  lemma CallShape(s: State, c: Caller)
    requires Shape(s) && Enabled(s, Advance(c))
    ensures Shape(AdvanceCall(s, c))
  {
    var s' := AdvanceCall(s, c);
    assert CallerOk(s, c) && WorkerOk(s, CallOf(s, c).w);
    CallEffect(s, c, CallOf(s, c).w);
    forall x | 0 <= x < |s'.workers|
      ensures WorkerOk(s', x)
    {
      assert WorkerOk(s, x);
      CallRecord(s, c, x);
      CallLink(s, c, x);
    }
    forall d | Exists(s', d)
      ensures CallerOk(s', d)
    {
      assert CallerOk(s, d);
      CallCaller(s, c, d);
    }
  }

  lemma BeginShape(s: State, c: Caller, w: nat)
    requires Shape(s) && Enabled(s, Begin(c, w))
    ensures Shape(Apply(s, Begin(c, w)))
  {
    var s' := Apply(s, Begin(c, w));
    assert CallerOk(s, c);
    forall x | 0 <= x < |s'.workers|
      ensures WorkerOk(s', x)
    {
      assert WorkerOk(s, x);
    }
    forall d | Exists(s', d)
      ensures CallerOk(s', d)
    {
      assert CallerOk(s, d);
    }
  }

  // ---------------------------------------------------------------- a worker leaving its loop

  lemma LeavingRecord(s: State, a: Step, x: nat)
    requires Enabled(s, a) && (a.Leave? || a.AddSlack? || a.DropRef?) && x < |s.workers|
    requires RecordOk(s.closer, Exchanged(s), x, s.workers[x])
    ensures var s' := Apply(s, a); RecordOk(s'.closer, Exchanged(s'), x, s'.workers[x])
  {
    var s' := Apply(s, a);
    assert Exchanged(s') == Exchanged(s) && s'.closer == s.closer;
    assert x != a.i ==> s'.workers[x] == s.workers[x];
  }

  lemma LeavingLink(s: State, a: Step, x: nat)
    requires Enabled(s, a) && (a.Leave? || a.AddSlack? || a.DropRef?) && x < |s.workers| && LinkOk(s, x)
    ensures LinkOk(Apply(s, a), x)
  {
  }

  lemma LeavingShape(s: State, a: Step)
    requires Shape(s) && Enabled(s, a) && (a.Leave? || a.AddSlack? || a.DropRef?)
    ensures Shape(Apply(s, a))
  {
    var s' := Apply(s, a);
    forall x | 0 <= x < |s'.workers|
      ensures WorkerOk(s', x)
    {
      assert WorkerOk(s, x);
      LeavingRecord(s, a, x);
      LeavingLink(s, a, x);
    }
    forall d | Exists(s', d)
      ensures CallerOk(s', d)
    {
      assert CallerOk(s, d);
    }
  }

  // ---------------------------------------------------------------- closing the connection

  lemma ExchangeRecord(s: State, x: nat)
    requires Enabled(s, Close) && s.closer.Shut? && x < |s.workers| && RecordOk(s.closer, Exchanged(s), x, s.workers[x])
    ensures var s' := CloseStep(s); RecordOk(s'.closer, Exchanged(s'), x, s'.workers[x])
  {
  }

  lemma AfterRecord(s: State, x: nat)
    requires Enabled(s, Close) && s.closer.After? && x < |s.workers|
    requires RecordOk(s.closer, Exchanged(s), x, s.workers[x])
    ensures var s' := CloseStep(s); RecordOk(s'.closer, Exchanged(s'), x, s'.workers[x])
  {
  }

  lemma CloseRecord(s: State, x: nat)
    requires Enabled(s, Close) && x < |s.workers| && RecordOk(s.closer, Exchanged(s), x, s.workers[x])
    ensures var s' := CloseStep(s); RecordOk(s'.closer, Exchanged(s'), x, s'.workers[x])
  {
    if s.closer.Shut? {
      ExchangeRecord(s, x);
    } else if s.closer.After? {
      AfterRecord(s, x);
    }
  }

  lemma CloseLink(s: State, x: nat)
    requires Enabled(s, Close) && x < |s.workers| && LinkOk(s, x)
    ensures LinkOk(CloseStep(s), x)
  {
  }

  lemma CloseShape(s: State)
    requires Shape(s) && Enabled(s, Close)
    ensures Shape(CloseStep(s))
  {
    var s' := CloseStep(s);
    forall x | 0 <= x < |s'.workers|
      ensures WorkerOk(s', x)
    {
      assert WorkerOk(s, x);
      CloseRecord(s, x);
      CloseLink(s, x);
    }
    forall d | Exists(s', d)
      ensures CallerOk(s', d)
    {
      assert CallerOk(s, d);
    }
  }

  lemma OtherShape(s: State, a: Step)
    requires Shape(s) && Enabled(s, a) && (a.BeginClose? || a.Destroy?)
    ensures Shape(Apply(s, a))
  {
    var s' := Apply(s, a);
    forall x | 0 <= x < |s'.workers|
      ensures WorkerOk(s', x)
    {
      assert WorkerOk(s, x);
    }
    forall d | Exists(s', d)
      ensures CallerOk(s', d)
    {
      assert CallerOk(s, d);
    }
  }

  lemma ShapeKept(s: State, a: Step)
    requires Shape(s) && Enabled(s, a)
    ensures Shape(Apply(s, a))
  {
    match a
    case Begin(c, w) => BeginShape(s, c, w);
    case Advance(c) => CallShape(s, c);
    case Close => CloseShape(s);
    case BeginClose => OtherShape(s, a);
    case Destroy => OtherShape(s, a);
    case _ => LeavingShape(s, a);
  }

  // ---------------------------------------------------------------- the reference count

  lemma HeldNonNegative(s: State)
    requires Shape(s)
    ensures forall r :: r in s.workers ==> Held(r) >= 0
  {
    forall r | r in s.workers
      ensures Held(r) >= 0
    {
      var w :| 0 <= w < |s.workers| && s.workers[w] == r;
      assert WorkerOk(s, w);
    }
  }

  lemma AdvanceCounted(s: State, c: Caller)
    requires Enabled(s, Advance(c))
    ensures Sum(AdvanceCall(s, c).workers, Held) == Sum(s.workers, Held)
  {
    var call := CallOf(s, c);
    var r := NextRecord(s.workers[call.w], call, c, s.clock + 1);
    SumUpdate(s.workers, call.w, r, Held);
    if c.Worker? {
      var workers := s.workers[call.w := r];
      SumUpdate(workers, c.i, workers[c.i].(call := NextCall(s.workers[call.w], call)), Held);
    }
  }

  lemma DropCounted(s: State, i: nat)
    requires Inv(s) && Enabled(s, DropRef(i))
    ensures Counted(Apply(s, DropRef(i)))
  {
    var s' := Apply(s, DropRef(i));
    assert WorkerOk(s, i);
    HeldNonNegative(s);
    SumAtLeast(s.workers, i, Held);
    SumUpdate(s.workers, i, s'.workers[i], Held);
  }

  lemma CloseCounted(s: State)
    requires Inv(s) && Enabled(s, Close)
    ensures Counted(CloseStep(s))
  {
    var s' := CloseStep(s);
    HeldNonNegative(s);
    SumNonNegative(s.workers, Held);
    var i := s.closer.i;
    if i < |s.workers| {
      assert WorkerOk(s, i);
      SumAtLeast(s.workers, i, Held);
      SumUpdate(s.workers, i, s'.workers[i], Held);
      assert s'.workers == s.workers[i := s'.workers[i]];
    }
  }

  lemma CountedKept(s: State, a: Step)
    requires Inv(s) && Enabled(s, a)
    ensures Counted(Apply(s, a))
  {
    match a
    case Begin(c, w) =>
      if c.Worker? {
        SumUpdate(s.workers, c.i, s.workers[c.i].(call := Load(w)), Held);
      }
    case Advance(c) => AdvanceCounted(s, c);
    case DropRef(i) => DropCounted(s, i);
    case Close => CloseCounted(s);
    case Leave(i) => SumUpdate(s.workers, i, s.workers[i].(thread := Leaving), Held);
    case AddSlack(i) => SumUpdate(s.workers, i, s.workers[i].(thread := Dropping), Held);
    case BeginClose =>
    case Destroy =>
  }

  // ---------------------------------------------------------------- runs

  ghost predicate Next(s: State, s': State) {
    exists a: Step :: Enabled(s, a) && Apply(s, a) == s'
  }

  ghost predicate IsRun(run: seq<State>) {
    && run != []
    && Initial(run[0])
    && forall i :: 0 <= i < |run| - 1 ==> NextAt(run, i)
  }

  ghost predicate NextAt(run: seq<State>, i: nat) { i + 1 < |run| && Next(run[i], run[i + 1]) }

  lemma {:induction false} HeldAll(workers: seq<Record>)
    requires forall r :: r in workers ==> r.dropped == 0
    ensures Sum(workers, Held) == |workers|
  {
    if workers != [] {
      HeldAll(workers[..|workers| - 1]);
    }
  }

  lemma InitialInv(s: State)
    requires Initial(s)
    ensures Inv(s)
  {
    HeldAll(s.workers);
    forall w | 0 <= w < |s.workers|
      ensures WorkerOk(s, w)
    {
    }
  }

  lemma {:induction false} RunInv(run: seq<State>, n: nat)
    requires IsRun(run) && n < |run|
    ensures Inv(run[n])
    decreases n
  {
    if n == 0 {
      InitialInv(run[0]);
    } else {
      RunInv(run, n - 1);
      assert NextAt(run, n - 1);
      var a :| Enabled(run[n - 1], a) && Apply(run[n - 1], a) == run[n];
      ShapeKept(run[n - 1], a);
      CountedKept(run[n - 1], a);
    }
  }

  /** All references are dropped. */
  lemma AllOut(s: State, w: nat)
    requires Inv(s) && s.refs <= 0 && w < |s.workers|
    ensures s.closer == Closed && s.workers[w].dropped == 1
    ensures (s.workers[w].thread == Gone || s.workers[w].stage == Unclaimed)
  {
    HeldNonNegative(s);
    SumNonNegative(s.workers, Held);
    SumAtLeast(s.workers, w, Held);
    assert WorkerOk(s, w);
  }

  /**
   Each worker drops at most one server reference, its handle is released at most once and only when it is set and the
   worker is told to quit, and the thread that launches it is the one that won the step from init.
   */
  lemma AtMostOnce(run: seq<State>, n: nat, w: nat)
    requires IsRun(run) && n < |run| && w < |run[n].workers|
    ensures var r := run[n].workers[w];
      && r.dropped <= 1 && r.released <= 1
      && (r.released == 1 ==> r.handle && r.state == Quit)
      && (r.dropped == 1 ==> r.state == Quit && (r.thread == Gone || r.thread == NoThread))
      && (r.thread != NoThread ==> r.launcher.Some?)
  {
    RunInv(run, n);
    assert WorkerOk(run[n], w);
  }

  /** The server is destroyed at most once, and only when nothing is left to do. */
  lemma DestroyedOnce(run: seq<State>, n: nat)
    requires IsRun(run) && n < |run|
    ensures run[n].destroyed <= 1
    ensures run[n].condemned > 0 || run[n].destroyed == 1 ==>
      forall w :: 0 <= w < |run[n].workers| ==> LeftForGood(run[n].workers[w])
    ensures run[n].destroyed == 1 ==> forall a :: !Enabled(run[n], a)
  {
    var s := run[n];
    RunInv(run, n);
    if s.refs == 0 {
      forall w | 0 <= w < |s.workers|
        ensures LeftForGood(s.workers[w])
      {
        Departed(s, w);
      }
      if s.destroyed == 1 {
        forall a
          ensures !Enabled(s, a)
        {
          NothingEnabled(s, a);
        }
      }
    }
  }

  /** The worker dropped its one reference; if it was launched its thread is gone and its handle was released once. */
  predicate LeftForGood(r: Record) {
    && r.dropped == 1
    && (if r.launcher.Some? then r.thread == Gone && r.released == 1 && r.call == Idle
      else r.thread == NoThread && r.released == 0)
  }

  lemma Departed(s: State, w: nat)
    requires Inv(s) && s.refs == 0 && w < |s.workers|
    ensures LeftForGood(s.workers[w])
  {
    AllOut(s, w);
    assert WorkerOk(s, w);
    var l := s.workers[w].launcher;
    if l.Some? {
      assert CallerOk(s, l.value);
      if l.value.Worker? {
        AllOut(s, l.value.i);
        assert WorkerOk(s, l.value.i);
      }
    }
  }

  lemma NothingEnabled(s: State, a: Step)
    requires Inv(s) && s.refs == 0 && s.condemned == 0
    ensures !Enabled(s, a)
  {
    assert s.closer == Closed by {
      HeldNonNegative(s);
      SumNonNegative(s.workers, Held);
    }
    match a
    case Begin(c, _) => CallerOut(s, c);
    case Advance(c) => CallerOut(s, c);
    case Leave(i) => WorkerOut(s, i);
    case AddSlack(i) => WorkerOut(s, i);
    case DropRef(i) => WorkerOut(s, i);
    case _ =>
  }

  lemma WorkerOut(s: State, i: nat)
    requires Inv(s) && s.refs == 0
    ensures i < |s.workers| ==> s.workers[i].thread == Gone || s.workers[i].thread == NoThread
    ensures i < |s.workers| ==> s.workers[i].call == Idle
  {
    if i < |s.workers| {
      Departed(s, i);
      assert WorkerOk(s, i);
    }
  }

  lemma CallerOut(s: State, c: Caller)
    requires Inv(s) && s.refs == 0 && s.closer == Closed
    ensures Exists(s, c) ==> CallOf(s, c) == Idle && (c.Worker? ==> s.workers[c.i].thread != InLoop)
  {
    if Exists(s, c) {
      assert CallerOk(s, c);
      if c.Worker? {
        WorkerOut(s, c.i);
      }
    }
  }

  // ---------------------------------------------------------------- no deadlock

  /** A step is possible that carries on with something begun. */
  ghost predicate CanStep(s: State) { exists a: Step :: !a.Begin? && Enabled(s, a) }

  /** A worker told to quit whose thread exists can move, or waits for one launched later that can. */
  lemma {:induction false} QuittingCanStep(s: State, w: nat)
    requires Shape(s) && w < |s.workers| && s.workers[w].state == Quit
    requires s.workers[w].thread != NoThread && s.workers[w].thread != Gone
    ensures CanStep(s)
    decreases s.clock - s.workers[w].born
  {
    var r := s.workers[w];
    assert WorkerOk(s, w) && CallerOk(s, Worker(w));
    if r.thread == Leaving {
      assert Enabled(s, AddSlack(w));
    } else if r.thread == Dropping {
      assert Enabled(s, DropRef(w));
    } else if r.call == Idle {
      assert Enabled(s, Leave(w));
    } else if r.call.Release? && s.workers[r.call.w].thread != Gone {
      assert WorkerOk(s, r.call.w);
      QuittingCanStep(s, r.call.w);
    } else {
      assert Enabled(s, Advance(Worker(w)));
    }
  }

  /**
   From the start of the close until the server is destroyed some step other than the beginning of a new call is
   possible, even where a release joins its thread.
   */
  lemma NoDeadlock(run: seq<State>, n: nat)
    requires IsRun(run) && n < |run| && run[n].closer != Open && run[n].destroyed == 0
    ensures CanStep(run[n])
  {
    var s := run[n];
    RunInv(run, n);
    if s.condemned > 0 {
      assert Enabled(s, Destroy);
    } else if s.closer.Join? && s.joins && !ThreadGone(s, s.closer.i) {
      assert WorkerOk(s, s.closer.i);
      QuittingCanStep(s, s.closer.i);
    } else if s.closer != Closed {
      assert Enabled(s, Close);
    } else {
      var w := StillHeld(s.workers);
      assert WorkerOk(s, w);
      if s.workers[w].thread == NoThread {
        var c := s.workers[w].launcher.value;
        assert CallerOk(s, c);
        assert Enabled(s, Advance(c));
      } else {
        QuittingCanStep(s, w);
      }
    }
  }

  lemma {:induction false} StillHeld(workers: seq<Record>) returns (w: nat)
    requires Sum(workers, Held) != 0
    ensures w < |workers| && workers[w].dropped != 1
  {
    w := |workers| - 1;
    if workers[w].dropped == 1 {
      w := StillHeld(workers[..w]);
    }
  }

  // ---------------------------------------------------------------- termination

  /** Steps a call can still take. */
  function CallRank(call: Call): nat {
    match call
    case Idle => 0
    case Notify(_) => 1
    case Release(_) => 1
    case CasNormal(_) => 2
    case SetHandle(_) => 3
    case Launch(_) => 4
    case CasInit(_) => 5
    case Load(_) => 6
  }

  function ThreadRank(t: Thread): nat {
    match t
    case NoThread => 4
    case InLoop => 3
    case Leaving => 2
    case Dropping => 1
    case Gone => 0
  }

  function WorkerRank(r: Record): int { CallRank(r.call) + 2 * ThreadRank(r.thread) }

  function OutsideRank(call: Call): int { CallRank(call) }

  function CloserRank(s: State): int {
    var n := |s.workers|;
    match s.closer
    case Open => 3 * n + 2
    case Shut(i) => 3 * (n - i) + 1
    case After(i, _) => 3 * (n - i)
    case Join(i) => 3 * (n - i) - 1
    case Closed => 0
  }

  /** Bounds the steps that can follow without the beginning of a new call. */
  function Left(s: State): int {
    Sum(s.workers, WorkerRank) + Sum(s.outside, OutsideRank) + 2 * CloserRank(s) + s.condemned
  }

  lemma LeftNonNegative(s: State)
    requires Shape(s)
    ensures Left(s) >= 0
  {
    SumNonNegative(s.workers, WorkerRank);
    SumNonNegative(s.outside, OutsideRank);
  }

  lemma CallRankLowers(r: Record, call: Call, c: Caller, clock: nat)
    requires Agrees(r, call, c) && (r.thread == NoThread <==> r.stage == Unclaimed || r.stage == Claimed)
    ensures CallRank(NextCall(r, call)) < CallRank(call)
    ensures WorkerRank(NextRecord(r, call, c, clock)) <= WorkerRank(r) && NextRecord(r, call, c, clock).call == r.call
  {
  }

  /** A worker's step of a call on worker w lowers the sum. */
  lemma WorkerCallLowers(workers: seq<Record>, w: nat, r': Record, i: nat, call': Call)
    requires w < |workers| && i < |workers| && WorkerRank(r') <= WorkerRank(workers[w]) && r'.call == workers[w].call
    requires CallRank(call') < CallRank(workers[i].call)
    ensures var touched := workers[w := r'];
      Sum(touched[i := touched[i].(call := call')], WorkerRank) < Sum(workers, WorkerRank)
  {
    var touched := workers[w := r'];
    SumUpdate(workers, w, r', WorkerRank);
    SumUpdate(touched, i, touched[i].(call := call'), WorkerRank);
    assert touched[i].call == workers[i].call;
  }

  lemma CallLowers(s: State, c: Caller)
    requires Enabled(s, Advance(c)) && CallerOk(s, c)
    requires var r := s.workers[CallOf(s, c).w]; r.thread == NoThread <==> r.stage == Unclaimed || r.stage == Claimed
    ensures Left(AdvanceCall(s, c)) < Left(s)
  {
    var call := CallOf(s, c);
    var r := s.workers[call.w];
    var r', call' := NextRecord(r, call, c, s.clock + 1), NextCall(r, call);
    CallRankLowers(r, call, c, s.clock + 1);
    if c.Worker? {
      WorkerCallLowers(s.workers, call.w, r', c.i, call');
    } else {
      SumUpdate(s.workers, call.w, r', WorkerRank);
      SumUpdate(s.outside, c.k, call', OutsideRank);
    }
    assert CloserRank(AdvanceCall(s, c)) == CloserRank(s);
  }

  lemma ThreadLowers(s: State, a: Step)
    requires Enabled(s, a) && (a.Leave? || a.AddSlack? || a.DropRef?)
    ensures Left(Apply(s, a)) < Left(s)
  {
    SumUpdate(s.workers, a.i, Apply(s, a).workers[a.i], WorkerRank);
  }

  lemma CloserLowers(s: State)
    requires Enabled(s, Close)
    ensures Left(CloseStep(s)) < Left(s)
  {
    var s', i := CloseStep(s), s.closer.i;
    if i < |s.workers| {
      assert s'.workers == s.workers[i := s'.workers[i]];
      SumUpdate(s.workers, i, s'.workers[i], WorkerRank);
    }
  }

  /** Every step but the beginning of a new call brings the end closer. */
  lemma StepLowers(s: State, a: Step)
    requires Shape(s) && Enabled(s, a) && !a.Begin?
    ensures Left(Apply(s, a)) < Left(s)
  {
    match a
    case Advance(c) =>
      assert CallerOk(s, c) && WorkerOk(s, CallOf(s, c).w);
      CallLowers(s, c);
    case Close => CloserLowers(s);
    case BeginClose =>
    case Destroy =>
    case _ => ThreadLowers(s, a);
  }

  /** s' follows s by a step that begins no new call. */
  ghost predicate Continues(s: State, s': State) {
    exists a: Step :: !a.Begin? && Enabled(s, a) && Apply(s, a) == s'
  }

  ghost predicate QuietAt(run: seq<State>, k: nat) { k + 1 < |run| && Continues(run[k], run[k + 1]) }

  /** A stretch of a run without new calls is no longer than the rank it starts with. */
  lemma {:induction false} BoundedStretch(run: seq<State>, m: nat, n: nat)
    requires IsRun(run) && m <= n < |run| && forall k :: m <= k < n ==> QuietAt(run, k)
    ensures n - m <= Left(run[m]) - Left(run[n]) <= Left(run[m])
    decreases n
  {
    RunShape(run, n);
    LeftNonNegative(run[n]);
    if m < n {
      BoundedStretch(run, m, n - 1);
      RunShape(run, n - 1);
      assert QuietAt(run, n - 1);
      NextLowers(run[n - 1], run[n]);
    }
  }

  lemma RunShape(run: seq<State>, n: nat)
    requires IsRun(run) && n < |run|
    ensures Shape(run[n])
  {
    RunInv(run, n);
  }

  lemma NextLowers(s: State, s': State)
    requires Shape(s) && Continues(s, s')
    ensures Left(s') < Left(s)
  {
    var a: Step :| !a.Begin? && Enabled(s, a) && Apply(s, a) == s';
    StepLowers(s, a);
  }

  ghost predicate Quiet(run: seq<State>, m: nat) {
    forall k :: m <= k < |run| - 1 ==> QuietAt(run, k)
  }

  /** One more step that begins no call. */
  lemma OneMore(run: seq<State>) returns (s': State)
    requires IsRun(run) && run[|run| - 1].closer != Open && run[|run| - 1].destroyed == 0
    ensures IsRun(run + [s']) && Continues(run[|run| - 1], s') && s'.closer != Open && Left(s') < Left(run[|run| - 1])
  {
    var s := run[|run| - 1];
    NoDeadlock(run, |run| - 1);
    RunInv(run, |run| - 1);
    var a: Step :| !a.Begin? && Enabled(s, a);
    s' := Apply(s, a);
    StepLowers(s, a);
    assert Next(s, s');
    Extended(run, s');
  }

  lemma Extended(run: seq<State>, s': State)
    requires IsRun(run) && Next(run[|run| - 1], s')
    ensures IsRun(run + [s'])
  {
    var longer := run + [s'];
    forall i | 0 <= i < |longer| - 1
      ensures NextAt(longer, i)
    {
      assert i < |run| - 1 ==> NextAt(run, i);
    }
  }

  lemma QuietExtended(run: seq<State>, s': State, rest: seq<State>)
    requires run != [] && Continues(run[|run| - 1], s') && Quiet(run + [s'] + rest, |run|)
    ensures Quiet(run + ([s'] + rest), |run| - 1)
  {
    var all := run + ([s'] + rest);
    assert all == run + [s'] + rest;
    forall k | |run| - 1 <= k < |all| - 1
      ensures QuietAt(all, k)
    {
      if k == |run| - 1 {
        assert all[k] == run[k] && all[k + 1] == s';
      }
    }
  }

  /**
   Once the close has begun, carrying on without new calls leads to the destruction of the server in bounded time: the
   run can be extended until the server is destroyed, and it cannot get stuck before.
   */
  lemma {:induction false} DestroyedInTheEnd(run: seq<State>) returns (more: seq<State>)
    requires IsRun(run) && run[|run| - 1].closer != Open
    ensures IsRun(run + more) && Quiet(run + more, |run| - 1) && |more| <= Left(run[|run| - 1])
    ensures (run + more)[|run + more| - 1].destroyed == 1
    decreases Left(run[|run| - 1])
  {
    var n := |run| - 1;
    RunInv(run, n);
    LeftNonNegative(run[n]);
    DestroyedOnce(run, n);
    if run[n].destroyed == 1 {
      more := [];
      assert run + more == run;
    } else {
      var s' := OneMore(run);
      assert (run + [s'])[n + 1] == s';
      var rest := DestroyedInTheEnd(run + [s']);
      more := [s'] + rest;
      assert run + more == run + [s'] + rest;
      QuietExtended(run, s', rest);
    }
  }
}
