/** The invariant of the pipeline. */
module PipelineInv {
  import opened Wrappers
  import opened InputBuffer
  import opened Sums
  import opened Pipeline

  /** The first in-order filter: the one that assigns tokens. */
  function FirstOrdered(filters: seq<Mode>): (r: nat)
    ensures r <= |filters|
    ensures r < |filters| ==> filters[r] == InOrder
    ensures forall k :: 0 <= k < r ==> filters[k] != InOrder
  {
    if filters == [] || filters[0] == InOrder then 0 else 1 + FirstOrdered(filters[1..])
  }

  predicate Carries(t: Task) {
    match t.phase
    case Claiming => true
    case Spawning => true
    case Ready => true
    case Running => true
    case Releasing => true
    case Waking(_) => true
    case Moving => true
    case Returning => true
    case _ => false
  }

  /** The last filter the item carried by t has entered. */
  function Reached(t: Task): int {
    match t.phase
    case Claiming => 0
    case Spawning => 0
    case Moving => t.filter - 1
    case _ => t.filter
  }

  /** t runs, is about to run, or is about to spawn the task that runs the lowest token of filter f. */
  predicate Holds(t: Task, f: nat) {
    t.filter == f && (t.phase == Ready || t.phase == Running || t.phase == Releasing || t.phase.Waking?)
  }

  function HeldItem(t: Task): nat {
    if t.phase.Waking? then t.phase.wakee.item else t.info.item
  }

  ghost predicate Config(s: State) {
    && s.filters != [] && s.maxToken > 0 && |s.stages| == |s.filters|
    && forall f :: 0 <= f < |s.filters| ==> s.stages[f].buffer.ordered == (s.filters[f] == InOrder)
  }

  /** An item has its token exactly when it has entered the first ordered filter. */
  ghost predicate TokenOk(s: State, info: Info, pos: int) {
    && (info.ready <==> FirstOrdered(s.filters) <= pos)
    && (info.ready ==> info.token < |s.order| && s.order[info.token] == info.item)
  }

  predicate PhaseOk(s: State, t: Task) {
    var n := |s.filters|;
    n > 0 &&
    match t.phase
    case Start => t.filter == 0
    case Reading => t.filter == 0 && Serial(s.filters[0])
    case Claiming => t.filter == 0 && Serial(s.filters[0]) && n > 1
    case Spawning => t.filter == 0 && Serial(s.filters[0]) && n > 1
    case ParClaiming => t.filter == 0 && !Serial(s.filters[0])
    case ParSpawning => t.filter == 0 && !Serial(s.filters[0])
    case ParReading => t.filter == 0 && !Serial(s.filters[0])
    case Ready => 0 < t.filter < n
    case Running => 0 < t.filter < n
    case Releasing => 0 < t.filter < n && Serial(s.filters[t.filter])
    case Waking(_) => 0 < t.filter < n && Serial(s.filters[t.filter])
    case Moving => 0 < t.filter < n && Serial(s.filters[t.filter])
    case Returning => t.filter == n - 1
    case Recycling => true
    case Done => true
  }

  ghost predicate TaskOk(s: State, i: nat)
    requires i < |s.tasks|
  {
    var t := s.tasks[i];
    && PhaseOk(s, t)
    && (Carries(t) ==> t.info.item < |s.home| && s.home[t.info.item].pos == Reached(t)
                       && s.home[t.info.item].place == InTask(i) && TokenOk(s, t.info, Reached(t)))
    && (t.phase.Waking? ==> t.phase.wakee.item < |s.home| && s.home[t.phase.wakee.item] == Home(t.filter, Woken(i))
                            && TokenOk(s, t.phase.wakee, t.filter))
    && (Holds(t, t.filter) && Serial(s.filters[t.filter]) ==>
         t.filter < |s.stages| && s.stages[t.filter].holder == Some(i))
  }

  ghost predicate HomeOk(s: State, x: nat)
    requires x < |s.home|
  {
    match s.home[x].place
    case InTask(i) => i < |s.tasks| && Carries(s.tasks[i]) && s.tasks[i].info.item == x
    case Woken(i) => i < |s.tasks| && s.tasks[i].phase.Waking? && s.tasks[i].phase.wakee.item == x
    case Deferred(f, t) => Fed(s, f) && t in s.stages[f].buffer.deferred && s.stages[f].buffer.deferred[t].item == x
                           && s.home[x].pos == f
    case Out => s.home[x].pos == |s.filters| - 1
  }

  /** The log of a filter runs one ahead of low while the holder is inside the filter. */
  predicate Entered(s: State, st: Stage) {
    st.holder.Some? && st.holder.value < |s.tasks| &&
    (s.tasks[st.holder.value].phase == Running || s.tasks[st.holder.value].phase == Releasing)
  }

  /** Deferred items wait beyond low_token, under their own token. */
  ghost predicate DeferredOk(s: State, f: nat)
    requires f < |s.stages|
  {
    var st := s.stages[f];
    var b := st.buffer;
    forall t :: t in b.deferred ==>
      && b.low < t && t in st.seen && st.seen[t] == b.deferred[t].item
      && st.seen[t] < |s.home| && s.home[st.seen[t]] == Home(f, Deferred(f, t))
      && TokenOk(s, b.deferred[t], f)
  }

  /** Every token below low_token has come, and everything that came is either done, at low_token or deferred. */
  ghost predicate SeenOk(s: State, f: nat)
    requires f < |s.stages|
  {
    var st := s.stages[f];
    var b := st.buffer;
    && (forall t :: t in st.seen ==> t <= b.low || t in b.deferred)
    && (forall t :: t in st.seen ==> st.seen[t] < |s.home| && s.home[st.seen[t]].pos >= f)
    && (forall t :: 0 <= t < b.low ==> t in st.seen)
    && (!b.ordered ==> forall t :: t in st.seen <==> 0 <= t < b.high)
  }

  /** An ordered filter sees item order[t] under token t. */
  ghost predicate InOrderOk(s: State, f: nat)
    requires f < |s.stages|
  {
    var st := s.stages[f];
    st.buffer.ordered ==> forall t :: t in st.seen ==> t < |s.order| && s.order[t] == st.seen[t]
  }

  /** Every item that has entered the filter came under exactly one token. */
  ghost predicate IndexOk(s: State, f: nat)
    requires f < |s.stages|
  {
    var st := s.stages[f];
    && (forall t :: t in st.seen ==> st.seen[t] in st.index && st.index[st.seen[t]] == t)
    && (forall x :: 0 <= x < |s.home| && s.home[x].pos >= f ==>
      x in st.index && st.index[x] in st.seen && st.seen[st.index[x]] == x)
  }

  ghost predicate BufferOk(s: State, f: nat)
    requires f < |s.stages|
  {
    DeferredOk(s, f) && SeenOk(s, f) && InOrderOk(s, f) && IndexOk(s, f)
  }

  ghost predicate HolderOk(s: State, f: nat)
    requires f < |s.stages|
  {
    var st := s.stages[f];
    var b := st.buffer;
    && (st.holder.Some? <==> b.low in st.seen)
    && (st.holder.Some? ==> st.holder.value < |s.tasks| && Holds(s.tasks[st.holder.value], f)
                            && HeldItem(s.tasks[st.holder.value]) == st.seen[b.low])
    && |st.log| == b.low + (if Entered(s, st) then 1 else 0)
    && (forall k :: 0 <= k < |st.log| ==> k in st.seen && st.log[k] == st.seen[k])
  }

  ghost predicate OrderOk(s: State) {
    var fo := FirstOrdered(s.filters);
    && (forall k :: 0 <= k < |s.order| ==> s.order[k] < |s.home| && s.home[s.order[k]].pos >= fo)
    && (forall k, l :: 0 <= k < l < |s.order| ==> s.order[k] != s.order[l])
    && (fo < |s.stages| ==> s.stages[fo].buffer.high == |s.order|)
    && (fo == |s.filters| ==> s.order == [])
  }

  predicate Fed(s: State, f: nat) { 0 < f < |s.stages| && f < |s.filters| && Serial(s.filters[f]) }

  /** A serial first filter produces the items one after the other, and an ordered one numbers them so. */
  ghost predicate FirstOk(s: State) {
    s.filters != [] && s.stages != [] && Serial(s.filters[0]) ==>
      && |s.stages[0].log| == |s.home|
      && (forall k :: 0 <= k < |s.home| ==> s.stages[0].log[k] == k)
      && (s.filters[0] == InOrder ==> s.order == s.stages[0].log)
  }

  // ---------------------------------------------------------------- counting

  /** Tokens a task holds: decremented from input_tokens and not yet incremented. */
  function Load(t: Task): int {
    match t.phase
    case Spawning => 1
    case ParSpawning => 1
    case ParReading => 1
    case Ready => 1
    case Running => 1
    case Releasing => 1
    case Waking(_) => 2
    case Moving => 1
    case Returning => 1
    case _ => 0
  }

  function StageLoad(st: Stage): int { |st.buffer.deferred| }

  /** Tasks that have yet to do their decrement, or are committed to creating such a task. */
  function Starter(t: Task): int {
    match t.phase
    case Start => 1
    case Reading => 1
    case Claiming => 1
    case ParClaiming => 1
    case Spawning => 1
    case ParSpawning => 1
    case Recycling => 1
    case _ => 0
  }

  ghost predicate Counts(s: State) {
    && s.tokens + Sum(s.tasks, Load) + Sum(s.stages, StageLoad) + s.lost == s.maxToken
    && s.tokens >= 0
    && Sum(s.tasks, Starter) <= 1
    && (s.tokens == 0 ==> Sum(s.tasks, Starter) == 0)
    && (!s.ended && s.tokens > 0 ==> Sum(s.tasks, Starter) == 1)
  }

  ghost predicate Tasks(s: State) { forall i :: 0 <= i < |s.tasks| ==> TaskOk(s, i) }
  ghost predicate Homes(s: State) { forall x :: 0 <= x < |s.home| ==> HomeOk(s, x) }
  ghost predicate Buffers(s: State) { forall f :: Fed(s, f) ==> BufferOk(s, f) }
  ghost predicate Holders(s: State) { forall f :: Fed(s, f) ==> HolderOk(s, f) }

  ghost predicate Inv(s: State) {
    Config(s) && OrderOk(s) && FirstOk(s) && Tasks(s) && Homes(s) && Buffers(s) && Holders(s) && Counts(s)
  }
}
