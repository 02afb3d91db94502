/** The invariant of the pipeline is kept by every step. */
module PipelineProof {
  import opened Wrappers
  import opened InputBuffer
  import opened Pipeline
  import opened PipelineInv

  /** The invariant without the counts. */
  ghost predicate Struct(s: State) {
    Config(s) && OrderOk(s) && FirstOk(s) && Tasks(s) && Homes(s) && Buffers(s) && Holders(s)
  }

  // ---------------------------------------------------------------- what a step of task i at filter f leaves alone

  /** A change of home x made on behalf of task i or of the buffer of filter f. */
  predicate Touched(h: Home, i: nat, f: nat) {
    h.place == InTask(i) || h.place == Woken(i) || (h.place.Deferred? && h.place.filter == f)
  }

  ghost predicate Effect(s: State, s': State, i: nat, f: nat) {
    && i < |s.tasks| <= |s'.tasks|
    && (forall j :: 0 <= j < |s.tasks| && j != i ==> s'.tasks[j] == s.tasks[j])
    && (Holds(s.tasks[i], s.tasks[i].filter) ==> s.tasks[i].filter == f || !Fed(s, s.tasks[i].filter))
    && s'.filters == s.filters && s'.maxToken == s.maxToken
    && |s'.stages| == |s.stages|
    && (forall g :: 0 <= g < |s.stages| && g != f ==> s'.stages[g] == s.stages[g])
    && (f < |s.stages| ==> s'.stages[f].buffer.ordered == s.stages[f].buffer.ordered)
    && (f < |s.stages| ==> s'.stages[f].holder == s.stages[f].holder || s.stages[f].holder in {None, Some(i)})
    && s.order <= s'.order
    && |s.home| <= |s'.home|
    && (forall x :: 0 <= x < |s.home| ==> s'.home[x] == s.home[x] || Touched(s.home[x], i, f))
    && (forall x :: 0 <= x < |s.home| ==> s'.home[x].pos >= s.home[x].pos)
    && (forall x, g: nat :: 0 <= x < |s.home| && Fed(s, g) && g != f && s'.home[x].pos >= g ==> s.home[x].pos >= g)
    && (forall x, g: nat :: |s.home| <= x < |s'.home| && Fed(s, g) ==> s'.home[x].pos < g)
  }

  lemma ConfigFrame(s: State, s': State, i: nat, f: nat)
    requires Config(s) && Effect(s, s', i, f)
    ensures Config(s')
  {
  }

  lemma TasksFrame(s: State, s': State, i: nat, f: nat)
    requires Struct(s) && Effect(s, s', i, f)
    requires forall j :: 0 <= j < |s'.tasks| && (j == i || j >= |s.tasks|) ==> TaskOk(s', j)
    ensures Tasks(s')
  {
    forall j | 0 <= j < |s'.tasks|
      ensures TaskOk(s', j)
    {
      if j < |s.tasks| && j != i {
        assert TaskOk(s, j);
        TaskFrame(s, s', i, f, j);
      }
    }
  }

  lemma TaskFrame(s: State, s': State, i: nat, f: nat, j: nat)
    requires Config(s) && Effect(s, s', i, f) && j < |s.tasks| && j != i && TaskOk(s, j)
    ensures TaskOk(s', j)
  {
    var t := s.tasks[j];
    assert s'.tasks[j] == t;
    assert Carries(t) ==> s'.home[t.info.item] == s.home[t.info.item];
    assert t.phase.Waking? ==> s'.home[t.phase.wakee.item] == s.home[t.phase.wakee.item];
  }

  lemma BuffersFrame(s: State, s': State, i: nat, f: nat)
    requires Struct(s) && Effect(s, s', i, f) && (Fed(s, f) ==> f < |s'.stages| && BufferOk(s', f))
    ensures Buffers(s')
  {
    forall g: nat | Fed(s', g)
      ensures BufferOk(s', g)
    {
      if g != f {
        assert Fed(s, g) && BufferOk(s, g);
        assert s'.stages[g] == s.stages[g];
        DeferredFrame(s, s', g);
        SeenFrame(s, s', g);
        InOrderFrame(s, s', g);
        IndexFrame(s, s', g);
      }
    }
  }

  lemma DeferredFrame(s: State, s': State, g: nat)
    requires g < |s.stages| == |s'.stages| && s'.stages[g] == s.stages[g] && DeferredOk(s, g)
    requires s'.filters == s.filters && s.order <= s'.order && |s.home| <= |s'.home|
    requires forall x :: 0 <= x < |s.home| && s.home[x].place.Deferred? && s.home[x].place.filter == g ==>
      s'.home[x] == s.home[x]
    ensures DeferredOk(s', g)
  {
  }

  lemma SeenFrame(s: State, s': State, g: nat)
    requires g < |s.stages| == |s'.stages| && s'.stages[g] == s.stages[g] && SeenOk(s, g)
    requires |s.home| <= |s'.home| && forall x :: 0 <= x < |s.home| ==> s'.home[x].pos >= s.home[x].pos
    ensures SeenOk(s', g)
  {
  }

  lemma InOrderFrame(s: State, s': State, g: nat)
    requires g < |s.stages| == |s'.stages| && s'.stages[g] == s.stages[g] && InOrderOk(s, g) && s.order <= s'.order
    ensures InOrderOk(s', g)
  {
  }

  lemma IndexFrame(s: State, s': State, g: nat)
    requires g < |s.stages| == |s'.stages| && s'.stages[g] == s.stages[g] && IndexOk(s, g) && |s.home| <= |s'.home|
    requires forall x :: 0 <= x < |s.home| && s'.home[x].pos >= g ==> s.home[x].pos >= g
    requires forall x :: |s.home| <= x < |s'.home| ==> s'.home[x].pos < g
    ensures IndexOk(s', g)
  {
  }

  lemma HoldersFrame(s: State, s': State, i: nat, f: nat)
    requires Struct(s) && Effect(s, s', i, f) && (Fed(s, f) ==> f < |s'.stages| && HolderOk(s', f))
    ensures Holders(s')
  {
    forall g: nat | Fed(s', g)
      ensures HolderOk(s', g)
    {
      if g != f {
        assert Fed(s, g) && HolderOk(s, g);
        assert s'.stages[g] == s.stages[g];
      }
    }
  }

  lemma HomesFrame(s: State, s': State, i: nat, f: nat)
    requires Struct(s) && Effect(s, s', i, f)
    requires forall x :: 0 <= x < |s'.home| && (x >= |s.home| || Touched(s.home[x], i, f)) ==> HomeOk(s', x)
    ensures Homes(s')
  {
    forall x | 0 <= x < |s'.home|
      ensures HomeOk(s', x)
    {
      if x < |s.home| && !Touched(s.home[x], i, f) {
        assert HomeOk(s, x);
      }
    }
  }

  /** Everything a step has to show about what it did touch. */
  ghost predicate Local(s: State, s': State, i: nat, f: nat) {
    && (forall j :: 0 <= j < |s'.tasks| && (j == i || j >= |s.tasks|) ==> TaskOk(s', j))
    && (Fed(s, f) ==> f < |s'.stages| && BufferOk(s', f) && HolderOk(s', f))
    && (forall x :: 0 <= x < |s'.home| && (x >= |s.home| || Touched(s.home[x], i, f)) ==> HomeOk(s', x))
  }

  lemma Assemble(s: State, s': State, i: nat, f: nat)
    requires Struct(s) && Effect(s, s', i, f) && Local(s, s', i, f) && OrderOk(s') && FirstOk(s')
    ensures Struct(s')
  {
    ConfigFrame(s, s', i, f);
    TasksFrame(s, s', i, f);
    BuffersFrame(s, s', i, f);
    HoldersFrame(s, s', i, f);
    HomesFrame(s, s', i, f);
  }

  /** The homes touched by a step are those of the items its task carries and of its buffer. */
  lemma TouchedItems(s: State, i: nat, f: nat, x: nat)
    requires Struct(s) && i < |s.tasks| && x < |s.home| && Touched(s.home[x], i, f)
    ensures s.home[x].place == InTask(i) ==> Carries(s.tasks[i]) && s.tasks[i].info.item == x
    ensures s.home[x].place == Woken(i) ==> s.tasks[i].phase.Waking? && s.tasks[i].phase.wakee.item == x
    ensures s.home[x].place.Deferred? ==>
      && f < |s.stages| && s.home[x] == Home(f, Deferred(f, s.home[x].place.token))
      && s.home[x].place.token in s.stages[f].buffer.deferred
      && s.stages[f].buffer.deferred[s.home[x].place.token].item == x
  {
    assert HomeOk(s, x);
  }

  // ---------------------------------------------------------------- steps of a task without an item

  predicate Bare(t: Task) { !Carries(t) && !t.phase.Waking? }

  /** The task changes phase and nothing else moves; a new input stage task may appear. */
  lemma BareKeeps(s: State, s': State, i: nat)
    requires Struct(s) && i < |s.tasks| <= |s'.tasks| && Bare(s.tasks[i]) && Bare(s'.tasks[i])
    requires s'.tasks == s.tasks[i := s'.tasks[i]] || s'.tasks == s.tasks[i := s'.tasks[i]] + [START]
    requires PhaseOk(s, s'.tasks[i])
    requires s' == s.(tasks := s'.tasks, tokens := s'.tokens, ended := s'.ended, lost := s'.lost)
    ensures Struct(s')
  {
    var f := |s.stages|;
    assert Effect(s, s', i, f);
    forall x | 0 <= x < |s.home|
      ensures !Touched(s.home[x], i, f)
    {
      if Touched(s.home[x], i, f) {
        TouchedItems(s, i, f, x);
      }
    }
    Assemble(s, s', i, f);
  }

  lemma BareSteps(s: State, a: Step)
    requires Struct(s) && Enabled(s, a)
    requires a.Begin? || a.StopInput? || a.EndRead? || a.ParEnd? || a.Recycle?
          || (a.Claim? && s.tasks[a.i].phase == ParClaiming) || (a.SpawnNext? && s.tasks[a.i].phase == ParSpawning)
    ensures Struct(Apply(s, a))
  {
    assert TaskOk(s, a.i);
    var s' := Apply(s, a);
    if a.SpawnNext? {
      assert s'.tasks == s.tasks[a.i := s'.tasks[a.i]] + [START];
    } else if a.StopInput? {
      assert s'.tasks == s.tasks[a.i := s'.tasks[a.i]];
    }
    BareKeeps(s, s', a.i);
  }

  // ---------------------------------------------------------------- steps of a task that carries an item

  /** Turning to the next filter moves the task and at most the position of its item. */
  lemma OnwardTask(s: State, i: nat, f: nat, info: Info)
    requires Config(s) && f < |s.filters| && i < |s.tasks|
    requires info.item < |s.home| && s.home[info.item] == Home(f, InTask(i)) && TokenOk(s, info, f)
    ensures var s' := Onward(s, i, f, info);
            var x := info.item;
            && s' == s.(tasks := s.tasks[i := s'.tasks[i]], home := s.home[x := s'.home[x]])
            && s'.tasks[i].info == info && Carries(s'.tasks[i]) && !s'.tasks[i].phase.Waking?
            && s'.home[x].place == InTask(i)
            && (s'.home[x].pos == f || (s'.home[x].pos == f + 1 < |s.filters| && !Serial(s.filters[f + 1])))
            && TaskOk(s', i) && HomeOk(s', x)
  {
    var s', x := Onward(s, i, f, info), info.item;
    assert s.home == s.home[x := s.home[x]];
  }

  /** Steps that assign no token and read no input. */
  lemma OrderFrame(s: State, s': State)
    requires OrderOk(s) && FirstOk(s) && Config(s)
    requires s'.filters == s.filters && s'.order == s.order && |s'.home| == |s.home| && |s'.stages| == |s.stages|
    requires forall x :: 0 <= x < |s.home| ==> s'.home[x].pos >= s.home[x].pos
    requires forall f :: 0 <= f < |s.stages| && s.filters[f] == InOrder && f == FirstOrdered(s.filters) ==>
      s'.stages[f].buffer.high == s.stages[f].buffer.high
    requires s'.stages[0].log == s.stages[0].log
    ensures OrderOk(s') && FirstOk(s')
  {
  }

  /** The step moved its own item only, from filter f onward, and touched no buffer. */
  lemma CarriedOn(s: State, s1: State, s': State, i: nat, f: nat)
    requires Struct(s) && i < |s.tasks| && Carries(s.tasks[i])
    requires !s.tasks[i].phase.Waking? && f == Reached(s.tasks[i]) < |s.filters|
    requires !Fed(s, f) || !Holds(s.tasks[i], f)
    requires s1 == s.(tasks := s1.tasks, tokens := s1.tokens) && (s1.tasks == s.tasks || s1.tasks == s.tasks + [START])
    requires s' == Onward(s1, i, f, s.tasks[i].info)
    ensures Struct(s')
  {
    var n, x := |s.stages|, s.tasks[i].info.item;
    assert TaskOk(s, i);
    OnwardTask(s1, i, f, s.tasks[i].info);
    CarriedEffect(s, s', i, f);
    CarriedLocal(s, s', i);
    OrderFrame(s, s');
    Assemble(s, s', i, n);
  }

  lemma CarriedEffect(s: State, s': State, i: nat, f: nat)
    requires Config(s) && i < |s.tasks| && Carries(s.tasks[i]) && f < |s.filters| && f == Reached(s.tasks[i])
    requires !Fed(s, f) || !Holds(s.tasks[i], f)
    requires i < |s'.tasks|
    requires s'.tasks == s.tasks[i := s'.tasks[i]] || s'.tasks == s.tasks[i := s'.tasks[i]] + [START]
    requires var x := s.tasks[i].info.item;
             && x < |s.home| == |s'.home| && s.home[x] == Home(f, InTask(i))
             && s' == s.(tasks := s'.tasks, tokens := s'.tokens, home := s.home[x := s'.home[x]])
             && (s'.home[x].pos == f || (s'.home[x].pos == f + 1 < |s.filters| && !Serial(s.filters[f + 1])))
    ensures Effect(s, s', i, |s.stages|)
  {
  }

  lemma CarriedLocal(s: State, s': State, i: nat)
    requires Struct(s) && i < |s.tasks| <= |s'.tasks| && Carries(s.tasks[i])
    requires !s.tasks[i].phase.Waking? && TaskOk(s', i)
    requires s'.filters == s.filters && |s'.tasks| > |s.tasks| ==> s'.tasks == s'.tasks[..|s.tasks|] + [START]
    requires s'.filters == s.filters && s.tasks[i].info.item < |s'.home| == |s.home| && HomeOk(s', s.tasks[i].info.item)
    ensures Local(s, s', i, |s.stages|)
  {
    forall y | 0 <= y < |s.home| && Touched(s.home[y], i, |s.stages|)
      ensures y == s.tasks[i].info.item
    {
      TouchedItems(s, i, |s.stages|, y);
    }
  }

  lemma ClaimKeeps(s: State, i: nat)
    requires Struct(s) && Enabled(s, Claim(i)) && s.tasks[i].phase == Claiming
    ensures Struct(Apply(s, Claim(i)))
  {
    assert TaskOk(s, i);
    if s.tokens > 1 {
      SamePlace(s, Apply(s, Claim(i)), i, |s.stages|);
    } else {
      CarriedOn(s, s.(tokens := s.tokens - 1), Apply(s, Claim(i)), i, 0);
    }
  }

  lemma SpawnNextKeeps(s: State, i: nat)
    requires Struct(s) && Enabled(s, SpawnNext(i)) && s.tasks[i].phase == Spawning
    ensures Struct(Apply(s, SpawnNext(i)))
  {
    assert TaskOk(s, i);
    CarriedOn(s, s.(tasks := s.tasks + [START]), Apply(s, SpawnNext(i)), i, 0);
  }

  /** The task keeps its item at the same filter and changes phase. */
  lemma SamePlace(s: State, s': State, i: nat, f: nat)
    requires Struct(s) && i < |s.tasks| && Carries(s.tasks[i]) && !s.tasks[i].phase.Waking?
    requires |s'.tasks| == |s.tasks| && |s'.stages| == |s.stages|
    requires s' == s.(tasks := s.tasks[i := s'.tasks[i]], tokens := s'.tokens, stages := s'.stages)
    requires s'.tasks[i] == s.tasks[i].(phase := s'.tasks[i].phase)
    requires Carries(s'.tasks[i]) && !s'.tasks[i].phase.Waking?
    requires Reached(s'.tasks[i]) == Reached(s.tasks[i]) && PhaseOk(s, s'.tasks[i])
    requires Holds(s'.tasks[i], s.tasks[i].filter) == Holds(s.tasks[i], s.tasks[i].filter)
    requires Holds(s.tasks[i], s.tasks[i].filter) && Fed(s, s.tasks[i].filter) ==> f == s.tasks[i].filter
    requires f < |s.stages| ==>
      s'.stages == s.stages[f := s'.stages[f]] && s'.stages[f] == s.stages[f].(log := s'.stages[f].log)
    requires f >= |s.stages| ==> s'.stages == s.stages
    requires f == 0 ==> s'.stages == s.stages
    requires Fed(s, f) ==> HolderOk(s', f)
    ensures Struct(s')
  {
    assert TaskOk(s, i);
    SamePlaceEffect(s, s', i, f);
    SamePlaceTask(s, s', i, f);
    SamePlaceHomes(s, s', i, f);
    if Fed(s, f) {
      assert BufferOk(s, f);
      SameBuffer(s, s', f);
    }
    assert Local(s, s', i, f);
    SamePlaceOrder(s, s', f);
    Assemble(s, s', i, f);
  }

  lemma SamePlaceEffect(s: State, s': State, i: nat, f: nat)
    requires Config(s) && i < |s.tasks| == |s'.tasks| && |s'.stages| == |s.stages|
    requires s' == s.(tasks := s.tasks[i := s'.tasks[i]], tokens := s'.tokens, stages := s'.stages)
    requires Holds(s.tasks[i], s.tasks[i].filter) && Fed(s, s.tasks[i].filter) ==> f == s.tasks[i].filter
    requires f < |s.stages| ==>
      s'.stages == s.stages[f := s'.stages[f]] && s'.stages[f] == s.stages[f].(log := s'.stages[f].log)
    requires f >= |s.stages| ==> s'.stages == s.stages
    ensures Effect(s, s', i, f)
  {
  }

  lemma SamePlaceTask(s: State, s': State, i: nat, f: nat)
    requires Config(s) && i < |s.tasks| == |s'.tasks| && |s'.stages| == |s.stages| && TaskOk(s, i)
    requires s'.home == s.home && s'.filters == s.filters && s'.order == s.order
    requires s'.tasks[i] == s.tasks[i].(phase := s'.tasks[i].phase) && Carries(s.tasks[i]) && Carries(s'.tasks[i])
    requires !s'.tasks[i].phase.Waking? && Reached(s'.tasks[i]) == Reached(s.tasks[i]) && PhaseOk(s, s'.tasks[i])
    requires Holds(s'.tasks[i], s.tasks[i].filter) == Holds(s.tasks[i], s.tasks[i].filter)
    requires forall g :: 0 <= g < |s.stages| ==> s'.stages[g].holder == s.stages[g].holder
    ensures TaskOk(s', i)
  {
  }

  lemma SamePlaceHomes(s: State, s': State, i: nat, f: nat)
    requires Struct(s) && i < |s.tasks| == |s'.tasks| && |s'.stages| == |s.stages|
    requires s'.home == s.home && s'.filters == s.filters
    requires s'.tasks[i].info == s.tasks[i].info && Carries(s'.tasks[i]) && !s.tasks[i].phase.Waking?
    requires forall g :: 0 <= g < |s.stages| ==> s'.stages[g].buffer == s.stages[g].buffer
    ensures forall y :: 0 <= y < |s.home| && Touched(s.home[y], i, f) ==> HomeOk(s', y)
  {
    forall y | 0 <= y < |s.home| && Touched(s.home[y], i, f)
      ensures HomeOk(s', y)
    {
      TouchedItems(s, i, f, y);
      assert HomeOk(s, y);
    }
  }

  lemma SamePlaceOrder(s: State, s': State, f: nat)
    requires OrderOk(s) && FirstOk(s) && Config(s) && |s'.stages| == |s.stages|
    requires s'.filters == s.filters && s'.order == s.order && s'.home == s.home
    requires f < |s.stages| ==>
      s'.stages == s.stages[f := s'.stages[f]] && s'.stages[f] == s.stages[f].(log := s'.stages[f].log)
    requires f >= |s.stages| || f == 0 ==> s'.stages == s.stages
    ensures OrderOk(s') && FirstOk(s')
  {
    OrderFrame(s, s');
  }

  lemma SameBuffer(s: State, s': State, f: nat)
    requires f < |s.stages| == |s'.stages| && BufferOk(s, f)
    requires s'.stages[f] == s.stages[f].(log := s'.stages[f].log, holder := s'.stages[f].holder)
    requires s'.filters == s.filters && s'.order == s.order && s'.home == s.home
    ensures BufferOk(s', f)
  {
  }

  lemma RunKeeps(s: State, i: nat)
    requires Struct(s) && Enabled(s, Run(i))
    ensures Struct(Apply(s, Run(i)))
  {
    var s', f := Apply(s, Run(i)), s.tasks[i].filter;
    assert TaskOk(s, i);
    if Serial(s.filters[f]) {
      assert Fed(s, f) && HolderOk(s, f);
      RunHolder(s, s', i, f);
      SamePlace(s, s', i, f);
    } else {
      SamePlace(s, s', i, |s.stages|);
    }
  }

  /** The holder begins to run: the log takes the item at low_token. */
  lemma RunHolder(s: State, s': State, i: nat, f: nat)
    requires Enabled(s, Run(i)) && TaskOk(s, i) && f == s.tasks[i].filter && Fed(s, f) && HolderOk(s, f)
    requires s' == Apply(s, Run(i))
    ensures |s'.stages| == |s.stages| && HolderOk(s', f)
  {
    assert s.stages[f].holder == Some(i);
  }

  lemma FinishKeeps(s: State, i: nat)
    requires Struct(s) && Enabled(s, Finish(i))
    ensures Struct(Apply(s, Finish(i)))
  {
    var s', f := Apply(s, Finish(i)), s.tasks[i].filter;
    assert TaskOk(s, i);
    if Serial(s.filters[f]) {
      assert Fed(s, f) && HolderOk(s, f);
      SamePlace(s, s', i, f);
    } else {
      CarriedOn(s, s, s', i, f);
    }
  }

  lemma ReturnKeeps(s: State, i: nat)
    requires Struct(s) && Enabled(s, Return(i))
    ensures Struct(Apply(s, Return(i)))
  {
    var s', n, x := Apply(s, Return(i)), |s.stages|, s.tasks[i].info.item;
    assert TaskOk(s, i);
    ReturnEffect(s, s', i);
    forall y | 0 <= y < |s.home| && Touched(s.home[y], i, n)
      ensures y == x
    {
      TouchedItems(s, i, n, y);
    }
    OrderFrame(s, s');
    Assemble(s, s', i, n);
  }

  lemma ReturnEffect(s: State, s': State, i: nat)
    requires Config(s) && Enabled(s, Return(i)) && TaskOk(s, i) && s' == Apply(s, Return(i))
    ensures Effect(s, s', i, |s.stages|) && |s'.home| == |s.home| && s'.stages == s.stages && s'.order == s.order
    ensures |s'.tasks| == |s.tasks| && TaskOk(s', i) && HomeOk(s', s.tasks[i].info.item)
  {
  }

  // ---------------------------------------------------------------- reading input

  lemma ReadKeeps(s: State, i: nat)
    requires Struct(s) && Enabled(s, Read(i))
    ensures Struct(Apply(s, Read(i)))
  {
    var s' := Apply(s, Read(i));
    assert TaskOk(s, i);
    ReadEffect(s, i);
    ReadLocal(s, i);
    ReadOrder(s, i);
    Assemble(s, s', i, 0);
  }

  lemma ReadEffect(s: State, i: nat)
    requires Config(s) && Enabled(s, Read(i)) && Serial(s.filters[0])
    ensures Effect(s, Apply(s, Read(i)), i, 0)
  {
  }

  lemma ReadOrder(s: State, i: nat)
    requires Config(s) && OrderOk(s) && FirstOk(s) && Enabled(s, Read(i)) && Serial(s.filters[0])
    ensures OrderOk(Apply(s, Read(i))) && FirstOk(Apply(s, Read(i)))
  {
    var s' := Apply(s, Read(i));
    ReadShape(s, s', i);
    ReadOrderFrom(s, s');
    FirstExtended(s, s');
  }

  lemma ReadOrderFrom(s: State, s': State)
    requires OrderOk(s) && s.filters != [] && |s.stages| == |s.filters|
    requires s'.filters == s.filters && |s'.stages| == |s.stages|
    requires |s'.home| == |s.home| + 1 && s'.home[..|s.home|] == s.home && s'.home[|s.home|].pos == 0
    requires forall g :: 0 < g < |s.stages| ==> s'.stages[g] == s.stages[g]
    requires s'.order == if s.filters[0] == InOrder then s.order + [|s.home|] else s.order
    requires s.filters[0] == InOrder ==> s'.stages[0].buffer.high == s.stages[0].buffer.high + 1
    ensures OrderOk(s')
  {
    SamePrefix(s.home, s'.home);
    FirstIsOrdered(s.filters);
    if s.filters[0] == InOrder {
      OrderExtended(s, s', 0, |s.home|);
    } else {
      OrderSame(s, s');
    }
  }

  lemma SamePrefix(home: seq<Home>, home': seq<Home>)
    requires |home| <= |home'| && home'[..|home|] == home
    ensures forall y :: 0 <= y < |home| ==> home'[y] == home[y]
  {
    assert forall y :: 0 <= y < |home| ==> home'[y] == home'[..|home|][y];
  }

  lemma FirstIsOrdered(filters: seq<Mode>)
    requires filters != []
    ensures FirstOrdered(filters) == 0 <==> filters[0] == InOrder
  {
  }

  lemma ReadShape(s: State, s': State, i: nat)
    requires Enabled(s, Read(i)) && s' == Apply(s, Read(i))
    ensures s'.filters == s.filters && |s'.stages| == |s.stages|
    ensures |s'.home| == |s.home| + 1 && s'.home[..|s.home|] == s.home && s'.home[|s.home|].pos == 0
    ensures s'.stages[0].log == s.stages[0].log + [|s.home|]
    ensures forall g :: 0 < g < |s.stages| ==> s'.stages[g] == s.stages[g]
    ensures s'.order == if s.filters[0] == InOrder then s.order + [|s.home|] else s.order
    ensures s.filters[0] == InOrder ==> s'.stages[0].buffer.high == s.stages[0].buffer.high + 1
  {
  }

  lemma FirstExtended(s: State, s': State)
    requires FirstOk(s) && s.filters != [] && |s'.stages| == |s.stages| == |s.filters| && s'.filters == s.filters
    requires |s'.home| == |s.home| + 1 && s'.stages[0].log == s.stages[0].log + [|s.home|]
    requires s'.order == if s.filters[0] == InOrder then s.order + [|s.home|] else s.order
    ensures FirstOk(s')
  {
  }

  /** Filter f, the first ordered one, gave the next token to item x. */
  lemma OrderExtended(s: State, s': State, f: nat, x: nat)
    requires OrderOk(s) && |s.stages| == |s.filters| && f == FirstOrdered(s.filters) < |s.filters|
    requires s'.filters == s.filters && s'.order == s.order + [x] && |s'.stages| == |s.stages|
    requires |s.home| <= |s'.home| && x < |s'.home| && s'.home[x].pos >= f
    requires forall y :: 0 <= y < |s.home| ==> s'.home[y].pos >= s.home[y].pos
    requires x < |s.home| ==> s.home[x].pos < f
    requires s'.stages[f].buffer.high == s.stages[f].buffer.high + 1
    ensures OrderOk(s')
  {
  }

  lemma OrderSame(s: State, s': State)
    requires OrderOk(s) && |s.stages| == |s.filters| && s'.filters == s.filters
    requires s'.order == s.order && |s'.stages| == |s.stages|
    requires |s.home| <= |s'.home| && forall y :: 0 <= y < |s.home| ==> s'.home[y].pos >= s.home[y].pos
    requires var f := FirstOrdered(s.filters); f < |s.filters| ==> s'.stages[f].buffer.high == s.stages[f].buffer.high
    ensures OrderOk(s')
  {
  }

  lemma ReadLocal(s: State, i: nat)
    requires Struct(s) && Enabled(s, Read(i)) && Serial(s.filters[0])
    ensures Local(s, Apply(s, Read(i)), i, 0)
  {
    var s' := Apply(s, Read(i));
    assert TaskOk(s, i);
    ReadTask(s, s', i);
    forall y | 0 <= y < |s.home|
      ensures !Touched(s.home[y], i, 0)
    {
      assert HomeOk(s, y);
    }
  }

  lemma ReadTask(s: State, s': State, i: nat)
    requires Config(s) && OrderOk(s) && Enabled(s, Read(i)) && Serial(s.filters[0]) && s' == Apply(s, Read(i))
    ensures |s'.tasks| == |s.tasks| && TaskOk(s', i) && |s'.home| == |s.home| + 1 && HomeOk(s', |s.home|)
  {
    ReadForm(s, s', i);
    if |s.filters| > 1 {
      ReadToken(s, s', i);
    }
  }

  lemma ReadForm(s: State, s': State, i: nat)
    requires Config(s) && Enabled(s, Read(i)) && s' == Apply(s, Read(i))
    ensures |s'.tasks| == |s.tasks| && |s'.home| == |s.home| + 1 && s'.filters == s.filters
    ensures |s.filters| == 1 ==> s'.tasks[i] == START && s'.home[|s.home|] == Home(0, Out)
    ensures |s.filters| > 1 ==>
      && s'.tasks[i].phase == Claiming && s'.tasks[i].filter == 0 && s'.tasks[i].info.item == |s.home|
      && s'.home[|s.home|] == Home(0, InTask(i))
  {
  }

  /** The item has a token exactly if the first filter is ordered, and then it is the next one. */
  lemma ReadToken(s: State, s': State, i: nat)
    requires Config(s) && OrderOk(s) && Enabled(s, Read(i))
    requires |s.filters| > 1 && s' == Apply(s, Read(i)) && i < |s'.tasks|
    ensures TokenOk(s', s'.tasks[i].info, 0)
  {
    assert s.filters[0] == InOrder <==> FirstOrdered(s.filters) == 0;
    assert s.filters[0] == InOrder ==> s.stages[0].buffer.high == |s.order|;
  }

  lemma ParReadKeeps(s: State, i: nat)
    requires Struct(s) && Enabled(s, ParRead(i))
    ensures Struct(Apply(s, ParRead(i)))
  {
    var s', n := Apply(s, ParRead(i)), |s.stages|;
    assert TaskOk(s, i);
    ParReadEffect(s, s', i);
    ParReadLocal(s, s', i);
    Assemble(s, s', i, n);
  }

  lemma ParReadLocal(s: State, s': State, i: nat)
    requires Homes(s) && i < |s.tasks| == |s'.tasks| && s.tasks[i].phase == ParReading && TaskOk(s', i)
    requires |s'.home| == |s.home| + 1 && HomeOk(s', |s.home|) && |s.stages| == |s.filters|
    ensures Local(s, s', i, |s.stages|)
  {
    forall y | 0 <= y < |s.home|
      ensures !Touched(s.home[y], i, |s.stages|)
    {
      assert HomeOk(s, y);
    }
  }

  lemma ParReadEffect(s: State, s': State, i: nat)
    requires Config(s) && OrderOk(s) && FirstOk(s) && Enabled(s, ParRead(i))
    requires !Serial(s.filters[0]) && s' == Apply(s, ParRead(i))
    ensures Effect(s, s', i, |s.stages|) && OrderOk(s') && FirstOk(s')
    ensures |s'.tasks| == |s.tasks| && |s'.home| == |s.home| + 1 && TaskOk(s', i) && HomeOk(s', |s.home|)
  {
    ParReadForm(s, s', i);
    ParReadFrame(s, s', i);
    assert forall y :: 0 <= y < |s.home| ==> s'.home[y].pos >= s.home[y].pos;
    OrderSame(s, s');
  }

  lemma ParReadForm(s: State, s': State, i: nat)
    requires Config(s) && Enabled(s, ParRead(i)) && !Serial(s.filters[0]) && s' == Apply(s, ParRead(i))
    ensures |s'.tasks| == |s.tasks| && |s'.home| == |s.home| + 1
    ensures s' == s.(tasks := s.tasks[i := s'.tasks[i]], home := s.home + [s'.home[|s.home|]])
    ensures s'.home[|s.home|].pos == 0 || (s'.home[|s.home|].pos == 1 < |s.filters| && !Serial(s.filters[1]))
    ensures TaskOk(s', i) && HomeOk(s', |s.home|)
  {
    var s1, x := s.(home := s.home + [Home(0, InTask(i))]), |s.home|;
    OnwardTask(s1, i, 0, Info(x, 0, false));
    assert s1.home[x := s'.home[x]] == s.home + [s'.home[x]];
  }

  lemma ParReadFrame(s: State, s': State, i: nat)
    requires Config(s) && Enabled(s, ParRead(i)) && |s'.tasks| == |s.tasks| && |s'.home| == |s.home| + 1
    requires s' == s.(tasks := s.tasks[i := s'.tasks[i]], home := s.home + [s'.home[|s.home|]])
    requires s'.home[|s.home|].pos == 0 || (s'.home[|s.home|].pos == 1 < |s.filters| && !Serial(s.filters[1]))
    ensures Effect(s, s', i, |s.stages|)
  {
  }

  // ---------------------------------------------------------------- advancing a buffer

  /** A step of a task at serial filter f that changes stage f and homes it may touch. */
  lemma StageEffect(s: State, s': State, i: nat, f: nat)
    requires Config(s) && Fed(s, f) && i < |s.tasks| <= |s'.tasks| && s.tasks[i].filter == f
    requires forall j :: 0 <= j < |s.tasks| && j != i ==> s'.tasks[j] == s.tasks[j]
    requires |s'.stages| == |s.stages| && |s'.home| == |s.home|
    requires s' == s.(tasks := s'.tasks, stages := s.stages[f := s'.stages[f]], home := s'.home)
    requires s'.stages[f].buffer.ordered == s.stages[f].buffer.ordered
    requires s'.stages[f].holder == s.stages[f].holder || s.stages[f].holder == Some(i)
    requires forall y :: 0 <= y < |s.home| ==> s'.home[y] == s.home[y] || Shifted(s, s', i, f, y)
    ensures Effect(s, s', i, f)
  {
  }

  /** The item at home y was at filter f, and went no further than a parallel filter behind it. */
  predicate Shifted(s: State, s': State, i: nat, f: nat, y: nat)
    requires y < |s.home| && y < |s'.home|
  {
    && Touched(s.home[y], i, f) && s.home[y].pos == f
    && (s'.home[y].pos == f || (s'.home[y].pos == f + 1 < |s.filters| && !Serial(s.filters[f + 1])))
  }

  lemma ReleaseKeeps(s: State, i: nat)
    requires Struct(s) && Enabled(s, Release(i))
    ensures Struct(Apply(s, Release(i)))
  {
    var f := s.tasks[i].filter;
    assert TaskOk(s, i) && Fed(s, f) && BufferOk(s, f) && HolderOk(s, f);
    if s.stages[f].buffer.low + 1 in s.stages[f].buffer.deferred {
      ReleaseWakes(s, i, f);
    } else {
      ReleaseIdles(s, i, f);
    }
  }

  /** Nobody waits for the next token. */
  lemma ReleaseIdles(s: State, i: nat, f: nat)
    requires Struct(s) && Enabled(s, Release(i)) && Fed(s, f) && f == s.tasks[i].filter
    requires s.stages[f].buffer.low + 1 !in s.stages[f].buffer.deferred
    ensures Struct(Apply(s, Release(i)))
  {
    var s' := Apply(s, Release(i));
    AtSerial(s, i);
    IdleEffect(s, s', i, f);
    IdleHomes(s, s', i, f);
    SameLocal(s, s', i, f);
    Assemble(s, s', i, f);
  }

  lemma IdleEffect(s: State, s': State, i: nat, f: nat)
    requires Config(s) && OrderOk(s) && FirstOk(s) && Enabled(s, Release(i)) && s' == Apply(s, Release(i))
    requires Fed(s, f) && f == s.tasks[i].filter && TaskOk(s, i) && BufferOk(s, f) && HolderOk(s, f)
    requires s.stages[f].buffer.low + 1 !in s.stages[f].buffer.deferred
    ensures Effect(s, s', i, f) && BufferOk(s', f) && HolderOk(s', f) && OrderOk(s') && FirstOk(s')
    ensures |s'.tasks| == |s.tasks| && TaskOk(s', i)
  {
    IdleMoves(s, s', i, f);
    AdvancedBuffer(s, s', f, s.tasks[i].info.item);
    AdvancedHolder(s, s', f);
    OrderFrame(s, s');
  }

  lemma IdleMoves(s: State, s': State, i: nat, f: nat)
    requires Config(s) && Enabled(s, Release(i)) && s' == Apply(s, Release(i))
    requires Fed(s, f) && f == s.tasks[i].filter && TaskOk(s, i)
    requires s.stages[f].buffer.low + 1 !in s.stages[f].buffer.deferred
    ensures Effect(s, s', i, f) && |s'.tasks| == |s.tasks| && TaskOk(s', i)
    ensures |s'.home| == |s.home| && s'.order == s.order
    ensures s'.stages[f] == s.stages[f].(buffer := Advanced(s.stages[f].buffer).0, holder := None)
    ensures forall y :: 0 <= y < |s.home| && y != s.tasks[i].info.item ==> s'.home[y] == s.home[y]
  {
    IdleShape(s, s', i, f);
    StageEffect(s, s', i, f);
  }

  lemma IdleHomes(s: State, s': State, i: nat, f: nat)
    requires Struct(s) && Enabled(s, Release(i)) && Fed(s, f) && f == s.tasks[i].filter && s' == Apply(s, Release(i))
    requires s.stages[f].buffer.low + 1 !in s.stages[f].buffer.deferred && TaskOk(s, i)
    ensures forall y :: 0 <= y < |s'.home| && (y >= |s.home| || Touched(s.home[y], i, f)) ==> HomeOk(s', y)
  {
    IdleShape(s, s', i, f);
    forall y | 0 <= y < |s.home| && Touched(s.home[y], i, f)
      ensures HomeOk(s', y)
    {
      TouchedItems(s, i, f, y);
    }
  }

  lemma IdleShape(s: State, s': State, i: nat, f: nat)
    requires Config(s) && Enabled(s, Release(i)) && Fed(s, f) && f == s.tasks[i].filter && TaskOk(s, i)
    requires s.stages[f].buffer.low + 1 !in s.stages[f].buffer.deferred && s' == Apply(s, Release(i))
    ensures var x := s.tasks[i].info.item;
            && |s'.stages| == |s.stages| && |s'.home| == |s.home| && |s'.tasks| == |s.tasks|
            && s'.stages[f] == s.stages[f].(buffer := Advanced(s.stages[f].buffer).0, holder := None)
            && s'.stages[f].buffer.deferred == s.stages[f].buffer.deferred
            && s' == s.(tasks := s.tasks[i := s'.tasks[i]], stages := s.stages[f := s'.stages[f]],
              home := s.home[x := s'.home[x]])
            && Shifted(s, s', i, f, x) && TaskOk(s', i) && HomeOk(s', x) && s.home[x].place == InTask(i)
  {
    var s1 := IdleBase(s, i, f);
    IdleBaseOk(s, i, f);
    OnwardTask(s1, i, f, s.tasks[i].info);
  }

  /** The buffer has advanced and task i is about to turn to the next filter. */
  function IdleBase(s: State, i: nat, f: nat): State
    requires Enabled(s, Release(i)) && f == s.tasks[i].filter
  {
    SetStage(s, f, s.stages[f].(buffer := Advanced(s.stages[f].buffer).0, holder := None))
  }

  lemma IdleBaseOk(s: State, i: nat, f: nat)
    requires Config(s) && Enabled(s, Release(i)) && Fed(s, f) && f == s.tasks[i].filter && TaskOk(s, i)
    requires s.stages[f].buffer.low + 1 !in s.stages[f].buffer.deferred
    ensures var s1, x := IdleBase(s, i, f), s.tasks[i].info.item;
      && Config(s1) && x < |s1.home| && s1.home[x] == s.home[x] == Home(f, InTask(i)) && TokenOk(s1, s.tasks[i].info, f)
      && s1.stages[f].buffer.deferred == s.stages[f].buffer.deferred
      && Apply(s, Release(i)) == Onward(s1, i, f, s.tasks[i].info)
  {
    var d := s.stages[f].buffer.deferred;
    assert d - {s.stages[f].buffer.low + 1} == d;
  }

  /** The log catches up with low_token, and the item now at low_token has no holder yet. */
  lemma AdvancedHolder(s: State, s': State, f: nat)
    requires f < |s.stages| == |s'.stages| && HolderOk(s, f) && SeenOk(s, f) && Entered(s, s.stages[f])
    requires s'.stages[f] == s.stages[f].(buffer := Advanced(s.stages[f].buffer).0, holder := None)
    requires s.stages[f].buffer.low + 1 !in s.stages[f].buffer.deferred
    ensures HolderOk(s', f)
  {
  }

  /** The buffer of f has advanced; only the homes of x and of the item at the new low token may have changed. */
  ghost predicate AdvancedAt(s: State, s': State, f: nat, x: nat) {
    && f < |s.stages| == |s'.stages| && s.stages[f].buffer.low in s.stages[f].seen
    && s'.stages[f].seen == s.stages[f].seen && s'.stages[f].index == s.stages[f].index
    && s'.stages[f].buffer == Advanced(s.stages[f].buffer).0
    && s'.filters == s.filters && s'.order == s.order && |s'.home| == |s.home|
    && x < |s.home| && s.home[x].place.InTask? && s.home[x].pos == f
    && (forall y :: 0 <= y < |s.home| ==>
      s'.home[y] == s.home[y] || y == x || s.home[y] == Home(f, Deferred(f, s.stages[f].buffer.low + 1)))
    && (forall y :: 0 <= y < |s.home| ==> s'.home[y].pos >= s.home[y].pos)
  }

  lemma AdvancedDeferred(s: State, s': State, f: nat, x: nat)
    requires AdvancedAt(s, s', f, x) && DeferredOk(s, f)
    ensures DeferredOk(s', f)
  {
    var b := s.stages[f].buffer;
    assert s'.stages[f].buffer.deferred == b.deferred - {b.low + 1};
  }

  lemma AdvancedSeen(s: State, s': State, f: nat, x: nat)
    requires AdvancedAt(s, s', f, x) && SeenOk(s, f)
    ensures SeenOk(s', f)
  {
  }

  lemma AdvancedBuffer(s: State, s': State, f: nat, x: nat)
    requires AdvancedAt(s, s', f, x) && BufferOk(s, f)
    ensures BufferOk(s', f)
  {
    AdvancedDeferred(s, s', f, x);
    AdvancedSeen(s, s', f, x);
    SameIndex(s, s', f);
  }

  lemma SameIndex(s: State, s': State, f: nat)
    requires f < |s.stages| == |s'.stages| && IndexOk(s, f) && |s'.home| == |s.home|
    requires s'.stages[f].seen == s.stages[f].seen && s'.stages[f].index == s.stages[f].index
    requires forall y :: 0 <= y < |s.home| ==> s'.home[y].pos == s.home[y].pos || s.home[y].pos >= f
    ensures IndexOk(s', f)
  {
  }

  /** The next token was deferred: its item is handed to the task. */
  lemma ReleaseWakes(s: State, i: nat, f: nat)
    requires Struct(s) && Enabled(s, Release(i)) && Fed(s, f) && f == s.tasks[i].filter
    requires s.stages[f].buffer.low + 1 in s.stages[f].buffer.deferred
    ensures Struct(Apply(s, Release(i)))
  {
    var s' := Apply(s, Release(i));
    AtSerial(s, i);
    WakesEffect(s, s', i, f);
    WakesLocal(s, s', i, f);
    Assemble(s, s', i, f);
  }

  lemma WakesLocal(s: State, s': State, i: nat, f: nat)
    requires Struct(s) && Enabled(s, Release(i)) && Fed(s, f) && f == s.tasks[i].filter && s' == Apply(s, Release(i))
    requires s.stages[f].buffer.low + 1 in s.stages[f].buffer.deferred
    ensures Local(s, s', i, f)
  {
    AtSerial(s, i);
    WakesEffect(s, s', i, f);
    WakesShape(s, s', i, f);
    WakesTask(s, s', i, f);
    WakesHomes(s, s', i, f);
    SameLocal(s, s', i, f);
  }

  lemma SameLocal(s: State, s': State, i: nat, f: nat)
    requires i < |s.tasks| == |s'.tasks| && TaskOk(s', i)
    requires f < |s'.stages| && BufferOk(s', f) && HolderOk(s', f)
    requires forall x :: 0 <= x < |s'.home| && (x >= |s.home| || Touched(s.home[x], i, f)) ==> HomeOk(s', x)
    ensures Local(s, s', i, f)
  {
  }

  lemma WakesEffect(s: State, s': State, i: nat, f: nat)
    requires Config(s) && OrderOk(s) && FirstOk(s) && Enabled(s, Release(i)) && s' == Apply(s, Release(i))
    requires Fed(s, f) && f == s.tasks[i].filter && TaskOk(s, i) && BufferOk(s, f) && HolderOk(s, f)
    requires s.stages[f].buffer.low + 1 in s.stages[f].buffer.deferred
    ensures Effect(s, s', i, f) && BufferOk(s', f) && OrderOk(s') && FirstOk(s')
  {
    WakesMoves(s, s', i, f);
    WakesBuffer(s, s', i, f);
    WakesOrder(s, s', i, f);
  }

  lemma WakesBuffer(s: State, s': State, i: nat, f: nat)
    requires Config(s) && Enabled(s, Release(i)) && s' == Apply(s, Release(i))
    requires Fed(s, f) && f == s.tasks[i].filter && TaskOk(s, i) && BufferOk(s, f) && HolderOk(s, f)
    requires s.stages[f].buffer.low + 1 in s.stages[f].buffer.deferred
    ensures f < |s'.stages| && BufferOk(s', f)
  {
    WakesMoves(s, s', i, f);
    AdvancedBuffer(s, s', f, s.tasks[i].info.item);
  }

  lemma WakesOrder(s: State, s': State, i: nat, f: nat)
    requires Config(s) && OrderOk(s) && FirstOk(s) && Enabled(s, Release(i)) && s' == Apply(s, Release(i))
    requires Fed(s, f) && f == s.tasks[i].filter && TaskOk(s, i) && DeferredOk(s, f) && HolderOk(s, f)
    requires s.stages[f].buffer.low + 1 in s.stages[f].buffer.deferred
    ensures OrderOk(s') && FirstOk(s')
  {
    WakesMoves(s, s', i, f);
    OrderFrame(s, s');
  }

  lemma WakesMoves(s: State, s': State, i: nat, f: nat)
    requires Config(s) && Enabled(s, Release(i)) && s' == Apply(s, Release(i))
    requires Fed(s, f) && f == s.tasks[i].filter && TaskOk(s, i) && DeferredOk(s, f) && HolderOk(s, f)
    requires s.stages[f].buffer.low + 1 in s.stages[f].buffer.deferred
    ensures Effect(s, s', i, f) && AdvancedAt(s, s', f, s.tasks[i].info.item) && s'.stages[0].log == s.stages[0].log
    ensures s'.stages == s.stages[f := s'.stages[f]] && s'.stages[f].buffer.high == s.stages[f].buffer.high
  {
    WakesShape(s, s', i, f);
    StageEffect(s, s', i, f);
  }

  lemma WakesHomes(s: State, s': State, i: nat, f: nat)
    requires Struct(s) && Enabled(s, Release(i)) && Fed(s, f) && f == s.tasks[i].filter
    requires s.stages[f].buffer.low + 1 in s.stages[f].buffer.deferred && s' == Apply(s, Release(i))
    ensures forall y :: 0 <= y < |s'.home| && (y >= |s.home| || Touched(s.home[y], i, f)) ==> HomeOk(s', y)
  {
    assert BufferOk(s, f);
    WakesShape(s, s', i, f);
    forall y | 0 <= y < |s.home| && Touched(s.home[y], i, f)
      ensures HomeOk(s', y)
    {
      TouchedItems(s, i, f, y);
    }
  }

  lemma WakesShape(s: State, s': State, i: nat, f: nat)
    requires Config(s) && Enabled(s, Release(i)) && Fed(s, f) && f == s.tasks[i].filter && DeferredOk(s, f)
    requires s.stages[f].buffer.low + 1 in s.stages[f].buffer.deferred && s' == Apply(s, Release(i))
    ensures var next := s.stages[f].buffer.low + 1;
            var w := s.stages[f].buffer.deferred[next];
            && w.item < |s.home| == |s'.home| && |s'.stages| == |s.stages| && |s'.tasks| == |s.tasks|
            && s.home[w.item] == Home(f, Deferred(f, next))
            && s'.tasks == s.tasks[i := s.tasks[i].(phase := Waking(w))]
            && s'.stages[f] == s.stages[f].(buffer := Advanced(s.stages[f].buffer).0)
            && s' ==
              s.(tasks := s'.tasks, stages := s.stages[f := s'.stages[f]], home := s.home[w.item := Home(f, Woken(i))])
  {
    var next := s.stages[f].buffer.low + 1;
    var w := s.stages[f].buffer.deferred[next];
    assert s.home[s.stages[f].seen[next]] == Home(f, Deferred(f, next));
  }

  lemma WakesTask(s: State, s': State, i: nat, f: nat)
    requires Config(s) && Enabled(s, Release(i)) && Fed(s, f) && f == s.tasks[i].filter
    requires TaskOk(s, i) && BufferOk(s, f) && HolderOk(s, f)
    requires s.stages[f].buffer.low + 1 in s.stages[f].buffer.deferred && s' == Apply(s, Release(i))
    requires |s'.tasks| == |s.tasks| && |s'.stages| == |s.stages|
    ensures TaskOk(s', i) && HolderOk(s', f)
  {
    WakesShape(s, s', i, f);
    WakesTaskOk(s, s', i, f);
    WakesHolder(s, s', i, f);
  }

  lemma WakesTaskOk(s: State, s': State, i: nat, f: nat)
    requires Config(s) && i < |s.tasks| == |s'.tasks| && Fed(s, f)
    requires f == s.tasks[i].filter && TaskOk(s, i) && DeferredOk(s, f)
    requires s.tasks[i].phase == Releasing && |s'.stages| == |s.stages| && s'.stages[f].holder == s.stages[f].holder
    requires s.stages[f].buffer.low + 1 in s.stages[f].buffer.deferred && s'.filters == s.filters && s'.order == s.order
    requires var w := s.stages[f].buffer.deferred[s.stages[f].buffer.low + 1];
      && w.item < |s.home| && s'.home == s.home[w.item := Home(f, Woken(i))] && s.home[w.item].place.Deferred?
      && s'.tasks[i] == s.tasks[i].(phase := Waking(w))
    ensures TaskOk(s', i)
  {
  }

  lemma WakesHolder(s: State, s': State, i: nat, f: nat)
    requires Config(s) && i < |s.tasks| == |s'.tasks| && f < |s.stages| == |s'.stages| && f == s.tasks[i].filter
    requires s.stages[f].holder == Some(i) && s.tasks[i].phase == Releasing && HolderOk(s, f) && DeferredOk(s, f)
    requires s.stages[f].buffer.low + 1 in s.stages[f].buffer.deferred
    requires s'.stages[f] == s.stages[f].(buffer := Advanced(s.stages[f].buffer).0)
    requires s'.tasks[i] == s.tasks[i].(phase := Waking(s.stages[f].buffer.deferred[s.stages[f].buffer.low + 1]))
    ensures HolderOk(s', f)
  {
  }

  lemma WakeKeeps(s: State, i: nat)
    requires Struct(s) && Enabled(s, Wake(i))
    ensures Struct(Apply(s, Wake(i)))
  {
    var s', f := Apply(s, Wake(i)), s.tasks[i].filter;
    AtSerial(s, i);
    WakeEffect(s, s', i, f);
    WakeLocal(s, s', i, f);
    Assemble(s, s', i, f);
  }

  lemma AtSerial(s: State, i: nat)
    requires Struct(s) && i < |s.tasks|
    requires s.tasks[i].phase.Waking? || s.tasks[i].phase.Releasing? || s.tasks[i].phase.Moving?
    ensures var f := s.tasks[i].filter; TaskOk(s, i) && Fed(s, f) && BufferOk(s, f) && HolderOk(s, f)
  {
    var f := s.tasks[i].filter;
    assert TaskOk(s, i) && PhaseOk(s, s.tasks[i]);
    assert Fed(s, f);
    assert BufferOk(s, f) && HolderOk(s, f);
  }

  lemma WakeLocal(s: State, s': State, i: nat, f: nat)
    requires Struct(s) && Enabled(s, Wake(i)) && Fed(s, f) && f == s.tasks[i].filter && s' == Apply(s, Wake(i))
    requires f < |s'.stages| && BufferOk(s', f) && TaskOk(s, i) && HolderOk(s, f)
    ensures Local(s, s', i, f)
  {
    WakeTasks(s, s', i, f);
    WakeHomes(s, s', i, f);
    LocalFrom(s, s', i, f);
  }

  lemma LocalFrom(s: State, s': State, i: nat, f: nat)
    requires i < |s.tasks| && |s'.tasks| == |s.tasks| + 1 && TaskOk(s', i) && TaskOk(s', |s.tasks|)
    requires f < |s'.stages| && BufferOk(s', f) && HolderOk(s', f)
    requires forall x :: 0 <= x < |s'.home| && (x >= |s.home| || Touched(s.home[x], i, f)) ==> HomeOk(s', x)
    ensures Local(s, s', i, f)
  {
  }

  lemma WakeEffect(s: State, s': State, i: nat, f: nat)
    requires Config(s) && OrderOk(s) && FirstOk(s) && Enabled(s, Wake(i)) && s' == Apply(s, Wake(i))
    requires Fed(s, f) && f == s.tasks[i].filter && TaskOk(s, i) && BufferOk(s, f)
    ensures Effect(s, s', i, f) && BufferOk(s', f) && OrderOk(s') && FirstOk(s')
  {
    WakeMoves(s, s', i, f);
    WokenBuffer(s, s', f);
    OrderFrame(s, s');
  }

  lemma WakeMoves(s: State, s': State, i: nat, f: nat)
    requires Config(s) && Enabled(s, Wake(i)) && s' == Apply(s, Wake(i))
    requires Fed(s, f) && f == s.tasks[i].filter && TaskOk(s, i)
    ensures Effect(s, s', i, f) && |s'.home| == |s.home| && s'.order == s.order
    ensures s'.stages[f] == s.stages[f].(holder := s'.stages[f].holder)
    ensures forall y :: 0 <= y < |s.home| ==>
      s'.home[y] == s.home[y] || (!s.home[y].place.Deferred? && s.home[y].pos == f)
  {
    WakeShape(s, s', i, f);
    assert s.stages[f].holder == Some(i);
    StageEffect(s, s', i, f);
  }

  lemma WakeHomes(s: State, s': State, i: nat, f: nat)
    requires Struct(s) && Enabled(s, Wake(i)) && Fed(s, f)
    requires f == s.tasks[i].filter && s' == Apply(s, Wake(i)) && TaskOk(s, i)
    ensures forall y :: 0 <= y < |s'.home| && (y >= |s.home| || Touched(s.home[y], i, f)) ==> HomeOk(s', y)
  {
    WakeShape(s, s', i, f);
    forall y | 0 <= y < |s.home| && Touched(s.home[y], i, f)
      ensures HomeOk(s', y)
    {
      TouchedItems(s, i, f, y);
    }
  }

  lemma WakeTasks(s: State, s': State, i: nat, f: nat)
    requires Config(s) && Enabled(s, Wake(i)) && Fed(s, f) && f == s.tasks[i].filter && TaskOk(s, i) && HolderOk(s, f)
    requires s' == Apply(s, Wake(i))
    ensures |s'.tasks| == |s.tasks| + 1 && TaskOk(s', i) && TaskOk(s', |s.tasks|) && HolderOk(s', f)
  {
    WakeShape(s, s', i, f);
  }

  lemma WakeShape(s: State, s': State, i: nat, f: nat)
    requires Config(s) && Enabled(s, Wake(i)) && Fed(s, f) && f == s.tasks[i].filter && TaskOk(s, i)
    requires s' == Apply(s, Wake(i))
    ensures var w, x, j := s.tasks[i].phase.wakee, s.tasks[i].info.item, |s.tasks|;
            && |s'.stages| == |s.stages| && |s'.home| == |s.home| && |s'.tasks| == |s.tasks| + 1 && x != w.item
            && s'.stages[f] == s.stages[f].(holder := Some(j))
            && s'.tasks == s.tasks[i := s'.tasks[i]] + [Task(Ready, f, w)]
            && s' == s.(tasks := s'.tasks, stages := s.stages[f := s'.stages[f]],
                        home := s.home[w.item := Home(f, InTask(j))][x := s'.home[x]])
            && Shifted(s, s', i, f, x) && s.home[x].place == InTask(i) && s.home[w.item] == Home(f, Woken(i))
            && TaskOk(s', i) && HomeOk(s', x) && s'.tasks[i].info.item == x
  {
    var s1 := WakeBase(s, i, f);
    WakeBaseOk(s, i, f);
    OnwardTask(s1, i, f, s.tasks[i].info);
  }

  /** The state after the task for the wakee is spawned and before task i turns to the next filter. */
  function WakeBase(s: State, i: nat, f: nat): State
    requires Enabled(s, Wake(i)) && f == s.tasks[i].filter
  {
    var w, j := s.tasks[i].phase.wakee, |s.tasks|;
    s.(stages := s.stages[f := s.stages[f].(holder := Some(j))], tasks := s.tasks + [Task(Ready, f, w)],
       home := s.home[w.item := Home(f, InTask(j))])
  }

  lemma WakeBaseOk(s: State, i: nat, f: nat)
    requires Config(s) && Enabled(s, Wake(i)) && Fed(s, f) && f == s.tasks[i].filter && TaskOk(s, i)
    ensures var s1, x := WakeBase(s, i, f), s.tasks[i].info.item;
      && Config(s1) && x < |s1.home| && s1.home[x] == s.home[x] == Home(f, InTask(i)) && TokenOk(s1, s.tasks[i].info, f)
      && x != s.tasks[i].phase.wakee.item && s.stages[f].holder == Some(i)
      && Apply(s, Wake(i)) == Onward(s1, i, f, s.tasks[i].info)
  {
  }

  /** A buffer that did not change while items in tasks moved on. */
  lemma WokenBuffer(s: State, s': State, f: nat)
    requires f < |s.stages| == |s'.stages| && BufferOk(s, f)
    requires s'.stages[f].seen == s.stages[f].seen && s'.stages[f].index == s.stages[f].index
    requires s'.stages[f].buffer == s.stages[f].buffer
    requires s'.filters == s.filters && s'.order == s.order && |s'.home| == |s.home|
    requires forall y :: 0 <= y < |s.home| ==>
      s'.home[y] == s.home[y] || (!s.home[y].place.Deferred? && s.home[y].pos >= f)
    requires forall y :: 0 <= y < |s.home| ==> s'.home[y].pos >= s.home[y].pos
    ensures BufferOk(s', f)
  {
    assert DeferredOk(s', f);
    assert SeenOk(s', f);
    assert InOrderOk(s', f);
    SameIndex(s, s', f);
  }

  // ---------------------------------------------------------------- putting an item into a buffer

  /** What TryPut does at a filter fed through its buffer: the token is new and not below low_token. */
  lemma PutToken(s: State, i: nat, f: nat)
    requires Struct(s) && Enabled(s, PutNext(i)) && f == s.tasks[i].filter
    ensures TaskOk(s, i) && Fed(s, f) && BufferOk(s, f) && HolderOk(s, f)
    ensures var st, info := s.stages[f], s.tasks[i].info;
            var p := TryPut(st.buffer, info);
            && p.token !in st.seen && st.buffer.low <= p.token && p.info.item == info.item
            && (st.buffer.ordered && !info.ready ==> f == FirstOrdered(s.filters) && p.token == |s.order|)
            && (st.buffer.ordered && info.ready ==>
              p.token == info.token < |s.order| && s.order[p.token] == info.item && p.info == info)
            && (!st.buffer.ordered ==> p.token == st.buffer.high && p.info == info)
  {
    AtSerial(s, i);
    PutTokenFrom(s, i, f);
  }

  lemma PutTokenFrom(s: State, i: nat, f: nat)
    requires Config(s) && OrderOk(s) && Enabled(s, PutNext(i)) && f == s.tasks[i].filter
    requires TaskOk(s, i) && Fed(s, f) && SeenOk(s, f) && InOrderOk(s, f)
    ensures var st, info := s.stages[f], s.tasks[i].info;
            var p := TryPut(st.buffer, info);
            && p.token !in st.seen && st.buffer.low <= p.token && p.info.item == info.item
            && (st.buffer.ordered && !info.ready ==> f == FirstOrdered(s.filters) && p.token == |s.order|)
            && (st.buffer.ordered && info.ready ==>
              p.token == info.token < |s.order| && s.order[p.token] == info.item && p.info == info)
            && (!st.buffer.ordered ==> p.token == st.buffer.high && p.info == info)
  {
    var st := s.stages[f];
    assert forall t :: t in st.seen ==> s.home[st.seen[t]].pos >= f;
  }

  lemma PutShape(s: State, s': State, i: nat, f: nat)
    requires Config(s) && Enabled(s, PutNext(i)) && f == s.tasks[i].filter && TaskOk(s, i) && s' == Apply(s, PutNext(i))
    ensures var st, x := s.stages[f], s.tasks[i].info.item;
            var p := TryPut(st.buffer, s.tasks[i].info);
            && |s'.home| == |s.home| && |s'.stages| == |s.stages| && 0 < f
            && s.home[x] == Home(f - 1, InTask(i))
            && s'.tasks == s.tasks[i := Task(if p.wait then Done else Ready, f, p.info)]
            && s'.home == s.home[x := Home(f, if p.wait then Deferred(f, p.token) else InTask(i))]
            && s'.stages[f] == st.(buffer := p.buffer, seen := st.seen[p.token := x], index := st.index[x := p.token],
              holder := if p.wait then st.holder else Some(i))
            && s' == s.(tasks := s'.tasks, home := s'.home, stages := s.stages[f := s'.stages[f]],
                        order := if st.buffer.ordered && !s.tasks[i].info.ready then s.order + [x] else s.order)
  {
    assert PhaseOk(s, s.tasks[i]);
  }

  lemma PutEffect(s: State, s': State, i: nat, f: nat)
    requires Struct(s) && Enabled(s, PutNext(i)) && f == s.tasks[i].filter && s' == Apply(s, PutNext(i))
    ensures Effect(s, s', i, f)
  {
    PutToken(s, i, f);
    PutShape(s, s', i, f);
    PutHolder(s, i, f);
    PutEffectFrom(s, s', i, f);
  }

  /** Whoever arrives with the lowest token finds no holder. */
  lemma PutHolder(s: State, i: nat, f: nat)
    requires Enabled(s, PutNext(i)) && f == s.tasks[i].filter && HolderOk(s, f)
    requires TryPut(s.stages[f].buffer, s.tasks[i].info).token !in s.stages[f].seen
    ensures !TryPut(s.stages[f].buffer, s.tasks[i].info).wait ==> s.stages[f].holder == None
  {
  }

  lemma PutEffectFrom(s: State, s': State, i: nat, f: nat)
    requires Config(s) && 0 < f < |s.filters| && i < |s.tasks|
    requires s.tasks[i].phase == Moving && s.tasks[i].info.item < |s.home|
    requires s.home[s.tasks[i].info.item] == Home(f - 1, InTask(i))
    requires |s'.home| == |s.home| && |s'.stages| == |s.stages| && |s'.tasks| == |s.tasks|
    requires s'.tasks == s.tasks[i := s'.tasks[i]]
    requires var x := s.tasks[i].info.item; s'.home == s.home[x := s'.home[x]] && s'.home[x].pos == f
    requires s' == s.(tasks := s'.tasks, home := s'.home, stages := s.stages[f := s'.stages[f]], order := s'.order)
    requires s'.stages[f].buffer.ordered == s.stages[f].buffer.ordered
    requires s'.stages[f].holder == s.stages[f].holder || s.stages[f].holder == None
    requires s'.order == s.order || (s'.order == s.order + [s.tasks[i].info.item] && f == FirstOrdered(s.filters))
    ensures Effect(s, s', i, f)
  {
  }

  lemma PutKeeps(s: State, i: nat)
    requires Struct(s) && Enabled(s, PutNext(i))
    ensures Struct(Apply(s, PutNext(i)))
  {
    var s', f := Apply(s, PutNext(i)), s.tasks[i].filter;
    PutEffect(s, s', i, f);
    PutToken(s, i, f);
    PutBuffer(s, s', i, f);
    PutTask(s, s', i, f);
    PutHomes(s, s', i, f);
    PutOrder(s, s', i, f);
    Assemble(s, s', i, f);
  }

  lemma PutBuffer(s: State, s': State, i: nat, f: nat)
    requires Struct(s) && Enabled(s, PutNext(i)) && f == s.tasks[i].filter && s' == Apply(s, PutNext(i))
    ensures f < |s'.stages| && BufferOk(s', f)
  {
    PutToken(s, i, f);
    PutShape(s, s', i, f);
    PutStamp(s, s', i, f);
    PutDeferred(s, s', i, f);
    PutSeen(s, s', i, f);
    PutInOrder(s, s', i, f);
    PutIndex(s, s', i, f);
  }

  /** The facts about TryPut that the parts of the buffer invariant need. */
  ghost predicate PutFacts(s: State, s': State, i: nat, f: nat)
  {
    && i < |s.tasks| && f < |s.stages| == |s'.stages| && s.tasks[i].info.item < |s.home| == |s'.home| && 0 < f
    && s'.filters == s.filters && s.order <= s'.order
    && var st, x := s.stages[f], s.tasks[i].info.item;
    var p := TryPut(st.buffer, s.tasks[i].info);
    && p.token !in st.seen && st.buffer.low <= p.token && p.info.item == x
    && s.home[x] == Home(f - 1, InTask(i))
    && s'.home == s.home[x := Home(f, if p.wait then Deferred(f, p.token) else InTask(i))]
    && s'.stages[f].buffer == p.buffer && s'.stages[f].seen == st.seen[p.token := x]
    && s'.stages[f].index == st.index[x := p.token]
  }

  lemma PutDeferred(s: State, s': State, i: nat, f: nat)
    requires PutFacts(s, s', i, f) && DeferredOk(s, f)
    requires var p := TryPut(s.stages[f].buffer, s.tasks[i].info); p.wait ==> TokenOk(s', p.info, f)
    ensures DeferredOk(s', f)
  {
  }

  lemma PutSeen(s: State, s': State, i: nat, f: nat)
    requires PutFacts(s, s', i, f) && SeenOk(s, f)
    ensures SeenOk(s', f)
  {
  }

  lemma PutInOrder(s: State, s': State, i: nat, f: nat)
    requires PutFacts(s, s', i, f) && InOrderOk(s, f)
    requires var p := TryPut(s.stages[f].buffer, s.tasks[i].info);
             s.stages[f].buffer.ordered ==> p.token < |s'.order| && s'.order[p.token] == s.tasks[i].info.item
    ensures InOrderOk(s', f)
  {
  }

  lemma PutIndex(s: State, s': State, i: nat, f: nat)
    requires PutFacts(s, s', i, f) && IndexOk(s, f) && SeenOk(s, f)
    ensures IndexOk(s', f)
  {
    assert forall t :: t in s.stages[f].seen ==> s.stages[f].seen[t] != s.tasks[i].info.item;
  }

  /** After the put the item is stamped as an item that has entered f. */
  lemma PutStamp(s: State, s': State, i: nat, f: nat)
    requires Struct(s) && Enabled(s, PutNext(i)) && f == s.tasks[i].filter && s' == Apply(s, PutNext(i))
    ensures PutFacts(s, s', i, f)
    ensures TokenOk(s', TryPut(s.stages[f].buffer, s.tasks[i].info).info, f)
    ensures s.stages[f].buffer.ordered ==>
      var p := TryPut(s.stages[f].buffer, s.tasks[i].info);
      p.token < |s'.order| && s'.order[p.token] == s.tasks[i].info.item
  {
    PutToken(s, i, f);
    PutShape(s, s', i, f);
    assert s.stages[f].buffer.ordered == (s.filters[f] == InOrder);
  }

  lemma PutTask(s: State, s': State, i: nat, f: nat)
    requires Struct(s) && Enabled(s, PutNext(i)) && f == s.tasks[i].filter && s' == Apply(s, PutNext(i))
    ensures |s'.tasks| == |s.tasks| && TaskOk(s', i) && f < |s'.stages| && HolderOk(s', f)
  {
    PutToken(s, i, f);
    PutShape(s, s', i, f);
    PutStamp(s, s', i, f);
    PutTaskFrom(s, s', i, f);
  }

  lemma PutTaskFrom(s: State, s': State, i: nat, f: nat)
    requires PutFacts(s, s', i, f) && f < |s.filters| && Serial(s.filters[f])
    requires HolderOk(s, f) && s.tasks[i].phase == Moving
    requires var st := s.stages[f];
             var p := TryPut(st.buffer, s.tasks[i].info);
             && TokenOk(s', p.info, f)
             && s'.tasks == s.tasks[i := Task(if p.wait then Done else Ready, f, p.info)]
             && s'.stages[f] == st.(buffer := p.buffer, seen := s'.stages[f].seen, index := s'.stages[f].index,
               holder := if p.wait then st.holder else Some(i))
    ensures TaskOk(s', i) && HolderOk(s', f)
  {
  }

  lemma PutHomes(s: State, s': State, i: nat, f: nat)
    requires Struct(s) && Enabled(s, PutNext(i)) && f == s.tasks[i].filter && s' == Apply(s, PutNext(i))
    ensures forall y :: 0 <= y < |s'.home| && (y >= |s.home| || Touched(s.home[y], i, f)) ==> HomeOk(s', y)
  {
    PutToken(s, i, f);
    PutShape(s, s', i, f);
    forall y | 0 <= y < |s.home| && Touched(s.home[y], i, f)
      ensures HomeOk(s', y)
    {
      TouchedItems(s, i, f, y);
      if s.home[y].place.Deferred? {
        assert s.home[y].place.token in s.stages[f].seen;
        PutLeaves(s, s', i, f, y, s.home[y].place.token);
      } else {
        PutItem(s, s', i, f);
      }
    }
  }

  /** An item deferred before stays where it is. */
  lemma PutLeaves(s: State, s': State, i: nat, f: nat, y: nat, t: nat)
    requires PutFacts(s, s', i, f) && Fed(s, f) && y < |s.home| && s.home[y] == Home(f, Deferred(f, t))
    requires t in s.stages[f].buffer.deferred && t in s.stages[f].seen && s.stages[f].buffer.deferred[t].item == y
    ensures HomeOk(s', y)
  {
  }

  /** The item put is deferred or stays with its task. */
  lemma PutItem(s: State, s': State, i: nat, f: nat)
    requires PutFacts(s, s', i, f) && Fed(s, f) && |s'.tasks| == |s.tasks|
    requires var p := TryPut(s.stages[f].buffer, s.tasks[i].info);
             s'.tasks[i] == Task(if p.wait then Done else Ready, f, p.info)
    ensures HomeOk(s', s.tasks[i].info.item)
  {
  }

  lemma PutOrder(s: State, s': State, i: nat, f: nat)
    requires Struct(s) && Enabled(s, PutNext(i)) && f == s.tasks[i].filter && s' == Apply(s, PutNext(i))
    ensures OrderOk(s') && FirstOk(s')
  {
    PutToken(s, i, f);
    PutOrderKept(s, s', i, f);
  }

  lemma PutOrderKept(s: State, s': State, i: nat, f: nat)
    requires Config(s) && OrderOk(s) && FirstOk(s) && Enabled(s, PutNext(i)) && f == s.tasks[i].filter && TaskOk(s, i)
    requires s' == Apply(s, PutNext(i))
    requires s.stages[f].buffer.ordered && !s.tasks[i].info.ready ==> f == FirstOrdered(s.filters)
    ensures OrderOk(s') && FirstOk(s')
  {
    PutShape(s, s', i, f);
    PutOrderFrom(s, s', f, s.tasks[i].info.item);
    FirstSame(s, s');
  }

  lemma PutOrderFrom(s: State, s': State, f: nat, x: nat)
    requires OrderOk(s) && |s.stages| == |s.filters| && f < |s.filters| && x < |s.home| == |s'.home|
    requires s'.filters == s.filters && |s'.stages| == |s.stages|
    requires forall y :: 0 <= y < |s.home| ==> s'.home[y].pos >= s.home[y].pos
    requires forall g :: 0 <= g < |s.stages| && g != f ==> s'.stages[g] == s.stages[g]
    requires s'.order == s.order || (s'.order == s.order + [x] && f == FirstOrdered(s.filters))
    requires s'.order != s.order ==>
      s.home[x].pos < f <= s'.home[x].pos && s'.stages[f].buffer.high == s.stages[f].buffer.high + 1
    requires s'.order == s.order && s.filters[f] == InOrder ==> s'.stages[f].buffer.high == s.stages[f].buffer.high
    ensures OrderOk(s')
  {
    if s'.order != s.order {
      OrderExtended(s, s', f, x);
    } else {
      OrderSame(s, s');
    }
  }

  lemma FirstSame(s: State, s': State)
    requires FirstOk(s) && s'.filters == s.filters && s.stages != []
    requires s'.stages != [] && s'.stages[0].log == s.stages[0].log
    requires |s'.home| == |s.home| && (s.filters != [] && s.filters[0] == InOrder ==> s'.order == s.order)
    ensures FirstOk(s')
  {
  }
}
