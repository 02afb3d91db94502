/**
 parallel_pipeline (src/tbb/parallel_pipeline.cpp) without cancellation and exceptions: stage tasks that carry
 items through a chain of filters. A step is one atomic access or one region under an input buffer's lock;
 running a filter takes two steps, its begin and its end.
 */
module Pipeline {
  import opened Wrappers
  import opened InputBuffer

  datatype Mode = Parallel | OutOfOrder | InOrder

  predicate Serial(m: Mode) { m != Parallel }

  /** Where a stage task is. */
  datatype Phase =
    | Start               // input stage task that has not read anything
    | Reading             // inside a serial first filter
    | Claiming            // serial first filter gave an item; about to decrement input_tokens
    | Spawning            // decremented, about to spawn the next input stage task
    | ParClaiming         // parallel first filter, end of input not seen; about to decrement input_tokens
    | ParSpawning         // decremented, about to spawn the next input stage task
    | ParReading          // inside a parallel first filter
    | Ready               // about to run filter
    | Running             // inside filter
    | Releasing           // a serial filter is done; about to advance its buffer
    | Waking(wakee: Info) // advanced the buffer, about to spawn a task for the wakee
    | Moving              // about to put its item into the buffer of filter
    | Returning           // end of the pipe; about to increment input_tokens
    | Recycling           // incremented from 0, about to look at end_of_input
    | Done

  datatype Task = Task(phase: Phase, filter: nat, info: Info)

  /** Where an item is; pos is the last filter it has entered. */
  datatype Place = InTask(task: nat) | Woken(task: nat) | Deferred(filter: nat, token: nat) | Out
  datatype Home = Home(pos: nat, place: Place)

  /** A filter's input buffer with its history: which item came under which token and back, who runs it, what it ran. */
  datatype Stage = Stage(buffer: Buffer, seen: map<nat, nat>, index: map<nat, nat>, holder: Option<nat>, log: seq<nat>)

  datatype State = State(
    filters: seq<Mode>,
    maxToken: nat,
    tokens: int,           // input_tokens
    ended: bool,           // end_of_input
    tasks: seq<Task>,
    stages: seq<Stage>,
    order: seq<nat>,       // items in the order their tokens were assigned
    home: seq<Home>,       // where every item read so far is
    lost: nat)             // tokens of parallel input tasks that met the end of input

  datatype Step =
    | Begin(i: nat) | StopInput(i: nat) | Read(i: nat) | EndRead(i: nat) | Claim(i: nat) | SpawnNext(i: nat)
    | ParRead(i: nat) | ParEnd(i: nat) | Run(i: nat) | Finish(i: nat) | Release(i: nat) | Wake(i: nat)
    | PutNext(i: nat) | Return(i: nat) | Recycle(i: nat)

  const START := Task(Start, 0, Info(0, 0, false))

  function NewStage(m: Mode): Stage { Stage(Buffer(m == InOrder, 0, 0, map[]), map[], map[], None, []) }

  ghost predicate Init(s: State) {
    && s.filters != [] && s.maxToken > 0 && s.tokens == s.maxToken && !s.ended
    && s.tasks == [START]
    && |s.stages| == |s.filters| && (forall f :: 0 <= f < |s.stages| ==> s.stages[f] == NewStage(s.filters[f]))
    && s.order == [] && s.home == [] && s.lost == 0
  }

  /** The indices a step uses are inside the pipeline. */
  predicate Sane(s: State) { s.filters != [] && |s.stages| == |s.filters| }

  predicate Enabled(s: State, a: Step) {
    && Sane(s)
    && a.i < |s.tasks|
    && var p := s.tasks[a.i].phase;
    match a
    case Begin(i) => p == Start
    case StopInput(i) => p == Reading
    case Read(i) => p == Reading
    case EndRead(i) => p == Reading
    case Claim(i) => p == Claiming || p == ParClaiming
    case SpawnNext(i) => p == Spawning || p == ParSpawning
    case ParRead(i) => p == ParReading
    case ParEnd(i) => p == ParReading
    case Run(i) => p == Ready && s.tasks[i].filter < |s.stages|
    case Finish(i) => p == Running && s.tasks[i].filter < |s.stages|
    case Release(i) => p == Releasing && s.tasks[i].filter < |s.stages|
    case Wake(i) => p.Waking? && p.wakee.item < |s.home| && s.tasks[i].filter < |s.stages|
    case PutNext(i) => p == Moving && s.tasks[i].filter < |s.stages| && s.tasks[i].info.item < |s.home|
    case Return(i) => p == Returning && s.tasks[i].info.item < |s.home|
    case Recycle(i) => p == Recycling
  }

  function Set(s: State, i: nat, t: Task): State
    requires i < |s.tasks|
  {
    s.(tasks := s.tasks[i := t])
  }

  /** The task is done with its filter and turns to the next one; entering a parallel filter needs no buffer. */
  function Onward(s: State, i: nat, f: nat, info: Info): State
    requires Sane(s) && i < |s.tasks|
  {
    var next := f + 1;
    if next >= |s.filters| then Set(s, i, Task(Returning, f, info))
    else if Serial(s.filters[next]) then Set(s, i, Task(Moving, next, info))
    else Set(Enter(s, info.item, next), i, Task(Ready, next, info))
  }

  function Enter(s: State, item: nat, f: nat): State {
    if item < |s.home| then s.(home := s.home[item := s.home[item].(pos := f)]) else s
  }

  function PutAt(s: State, item: nat, place: Place): State {
    if item < |s.home| then s.(home := s.home[item := s.home[item].(place := place)]) else s
  }

  function SetStage(s: State, f: nat, st: Stage): State
    requires f < |s.stages|
  {
    s.(stages := s.stages[f := st])
  }

  function Apply(s: State, a: Step): State
    requires Enabled(s, a)
  {
    var t := s.tasks[a.i];
    match a
    case Begin(i) =>
      if Serial(s.filters[0]) then Set(s, i, t.(phase := Reading))
      else if s.ended then Set(s, i, t.(phase := Done))
      else Set(s, i, t.(phase := ParClaiming))
    case StopInput(i) => s.(ended := true)
    case Read(i) => ApplyRead(s, i)
    case EndRead(i) => Set(s.(ended := true), i, t.(phase := Done))
    case Claim(i) =>
      var more := s.tokens > 1;
      var s' := s.(tokens := s.tokens - 1);
      if t.phase == ParClaiming then Set(s', i, t.(phase := if more then ParSpawning else ParReading))
      else if more then Set(s', i, t.(phase := Spawning))
      else Onward(s', i, 0, t.info)
    case SpawnNext(i) =>
      var s' := s.(tasks := s.tasks + [START]);
      if t.phase == ParSpawning then Set(s', i, t.(phase := ParReading)) else Onward(s', i, 0, t.info)
    case ParRead(i) =>
      var info := Info(|s.home|, 0, false);
      Onward(s.(home := s.home + [Home(0, InTask(i))]), i, 0, info)
    case ParEnd(i) => Set(s.(ended := true, lost := s.lost + 1), i, t.(phase := Done))
    case Run(i) =>
      var st := s.stages[t.filter];
      var s' := if Serial(s.filters[t.filter]) then SetStage(s, t.filter, st.(log := st.log + [t.info.item])) else s;
      Set(s', i, t.(phase := Running))
    case Finish(i) =>
      if Serial(s.filters[t.filter]) then Set(s, i, t.(phase := Releasing)) else Onward(s, i, t.filter, t.info)
    case Release(i) => ApplyRelease(s, i)
    case Wake(i) =>
      var w, j := t.phase.wakee, |s.tasks|;
      var st := s.stages[t.filter];
      var s' := SetStage(s, t.filter, st.(holder := Some(j))).(tasks := s.tasks + [Task(Ready, t.filter, w)]);
      Onward(PutAt(s', w.item, InTask(j)), i, t.filter, t.info)
    case PutNext(i) => ApplyPut(s, i)
    case Return(i) =>
      var s' := PutAt(s.(tokens := s.tokens + 1), t.info.item, Out);
      Set(s', i, t.(phase := if s.tokens > 0 then Done else Recycling))
    case Recycle(i) => Set(s, i, if s.ended then t.(phase := Done) else START)
  }

  /** A serial first filter produced an item; an ordered one gives it the next token. */
  function ApplyRead(s: State, i: nat): State
    requires Sane(s) && i < |s.tasks|
  {
    var x := |s.home|;
    var st := s.stages[0];
    var ordered := s.filters[0] == InOrder;
    var info := if ordered then Info(x, st.buffer.high, true) else Info(x, 0, false);
    var st' := st.(log := st.log + [x],
      buffer := if ordered then st.buffer.(high := st.buffer.high + 1) else st.buffer);
    var s' := SetStage(s.(order := if ordered then s.order + [x] else s.order), 0, st');
    if |s.filters| == 1 then Set(s'.(home := s.home + [Home(0, Out)]), i, START)
    else Set(s'.(home := s.home + [Home(0, InTask(i))]), i, Task(Claiming, 0, info))
  }

  /** try_to_spawn_task_for_next_token up to the spawn. */
  function ApplyRelease(s: State, i: nat): State
    requires Sane(s) && i < |s.tasks| && s.tasks[i].filter < |s.stages|
  {
    var t := s.tasks[i];
    var st := s.stages[t.filter];
    var (b, w) := Advanced(st.buffer);
    match w
    case None => Onward(SetStage(s, t.filter, st.(buffer := b, holder := None)), i, t.filter, t.info)
    case Some(wakee) =>
      var s' := SetStage(s, t.filter, st.(buffer := b));
      Set(PutAt(s', wakee.item, Woken(i)), i, t.(phase := Waking(wakee)))
  }

  /** try_put_token and what execute_filter does with its result. */
  function ApplyPut(s: State, i: nat): State
    requires Sane(s) && i < |s.tasks| && s.tasks[i].filter < |s.stages|
  {
    var t := s.tasks[i];
    var st := s.stages[t.filter];
    var p := TryPut(st.buffer, t.info);
    var item := t.info.item;
    var order := if st.buffer.ordered && !t.info.ready then s.order + [item] else s.order;
    var st' := st.(buffer := p.buffer, seen := st.seen[p.token := item], index := st.index[item := p.token],
      holder := if p.wait then st.holder else Some(i));
    var s' := Enter(SetStage(s.(order := order), t.filter, st'), item, t.filter);
    if p.wait then Set(PutAt(s', item, Deferred(t.filter, p.token)), i, Task(Done, t.filter, p.info))
    else Set(s', i, Task(Ready, t.filter, p.info))
  }
}
