/** The invariant of the task pool is kept by every step. */
module TaskPoolProof {
  import opened Wrappers
  import opened Relocation
  import opened TaskPool

  /** Clearing one cell and moving its task, if it had one, to the owner, the thief or the freed proxies. */
  lemma Cleared(v: View, v': View, i: int, c: Cell, moved: set<Task>)
    requires Sound(v)
    requires 0 <= i < |v.cells| && !c.Full? && v'.cells == v.cells[i := c]
    requires Inside(v, i) && i != v.pending
    requires forall j :: 0 <= j < |v.cells| ==> (Inside(v', j) <==> Inside(v, j) && (j != i || c == Hole))
    requires v'.pending == v.pending && v'.spawned == v.spawned && v'.log == v.log
    requires moved == if v.cells[i].Full? then {v.cells[i].task} else {}
    requires v'.freed + v'.owner + v'.thief == v.freed + v.owner + v.thief + moved
    requires v.freed <= v'.freed && v.owner <= v'.owner && v.thief <= v'.thief
    requires v'.owner !! v'.thief && v'.freed !! (v'.owner + v'.thief)
    ensures Sound(v')
  {
    assert forall t :: Returned(v, t) == Returned(v', t);
    forall t | t in v.spawned
      ensures Gone(v', t) || InPool(v', t)
    {
      if !Gone(v, t) {
        var j :| Inside(v, j) && 0 <= j < |v.cells| && v.cells[j] == Full(t);
        assert j != i ==> v'.cells[j] == Full(t);
      }
    }
  }

  /** Moving an empty range of the pool. */
  lemma Moved(v: View, v': View)
    requires Sound(v)
    requires v' == v.(lo := v'.lo, hi := v'.hi)
    requires forall j :: 0 <= j < |v.cells| ==> !Inside(v, j) && !Inside(v', j)
    ensures Sound(v')
  {
  }

  /** A task in hand is returned. */
  lemma Logged(v: View, v': View, c: Claim)
    requires Sound(v) && c.task in v.owner + v.thief && Suits(c.task, c.iso)
    requires v' == v.(log := v.log + [c], owner := v.owner - {c.task}, thief := v.thief - {c.task})
    ensures Sound(v')
  {
    forall t
      ensures Returned(v', t) <==> Returned(v, t) || t == c.task
    {
      assert v'.log[|v.log|] == c;
      if k :| 0 <= k < |v.log| && v.log[k].task == t {
        assert v'.log[k].task == t;
      }
    }
    forall t | t in v.spawned && InPool(v, t)
      ensures InPool(v', t)
    {
      var j :| Inside(v, j) && 0 <= j < |v.cells| && v.cells[j] == Full(t);
      assert Inside(v', j);
    }
  }

  /** The hole at the lower end leaves the pool. */
  lemma PoisonLow(v: View)
    requires Sound(v) && 0 <= v.lo < v.hi <= |v.cells| && v.cells[v.lo] == Hole && v.pending != v.lo
    ensures Sound(v.(cells := v.cells[v.lo := Poison], lo := v.lo + 1))
  {
    Cleared(v, v.(cells := v.cells[v.lo := Poison], lo := v.lo + 1), v.lo, Poison, {});
  }

  /** The hole at the upper end leaves the pool. */
  lemma PoisonHigh(v: View)
    requires Sound(v) && 0 <= v.lo < v.hi <= |v.cells| && v.cells[v.hi - 1] == Hole && v.pending != v.hi - 1
    ensures Sound(v.(cells := v.cells[v.hi - 1 := Poison], hi := v.hi - 1))
  {
    Cleared(v, v.(cells := v.cells[v.hi - 1 := Poison], hi := v.hi - 1), v.hi - 1, Poison, {});
  }

  /** The thief takes a task out of the middle, or the lowest one. */
  lemma ThiefTakes(v: View, i: int, t: Task)
    requires Sound(v) && 0 <= v.lo <= i < v.hi <= |v.cells| && v.cells[i] == Full(t) && v.pending != i && v.thief == {}
    ensures Sound(v.(cells := v.cells[i := Hole], thief := {t}))
    ensures i == v.lo ==> Sound(v.(cells := v.cells[i := Poison], lo := i + 1, thief := {t}))
  {
    Cleared(v, v.(cells := v.cells[i := Hole], thief := {t}), i, Hole, {t});
    if i == v.lo {
      Cleared(v, v.(cells := v.cells[i := Poison], lo := i + 1, thief := {t}), i, Poison, {t});
    }
  }

  /** The owner takes a task out of the middle, or the highest one, to return or to free it. */
  lemma OwnerTakes(v: View, i: int, t: Task)
    requires Sound(v) && 0 <= v.lo <= i < v.hi <= |v.cells| && v.cells[i] == Full(t) && v.pending != i && v.owner == {}
    ensures Sound(v.(cells := v.cells[i := Hole], owner := {t}))
    ensures Sound(v.(cells := v.cells[i := Hole], freed := v.freed + {t}))
    ensures i == v.hi - 1 ==> Sound(v.(cells := v.cells[i := Poison], hi := i, owner := {t}))
    ensures i == v.hi - 1 ==> Sound(v.(cells := v.cells[i := Poison], hi := i, freed := v.freed + {t}))
  {
    assert t !in v.freed && t !in v.thief by {
      assert Inside(v, i);
    }
    Cleared(v, v.(cells := v.cells[i := Hole], owner := {t}), i, Hole, {t});
    Cleared(v, v.(cells := v.cells[i := Hole], freed := v.freed + {t}), i, Hole, {t});
    if i == v.hi - 1 {
      Cleared(v, v.(cells := v.cells[i := Poison], hi := i, owner := {t}), i, Poison, {t});
      Cleared(v, v.(cells := v.cells[i := Poison], hi := i, freed := v.freed + {t}), i, Poison, {t});
    }
  }

  /** A task that is not spawned yet is stored above the pool. */
  lemma Stored(v: View, t: Task)
    requires Sound(v) && 0 <= v.lo <= v.hi < |v.cells| && v.pending == -1 && t !in v.spawned
    ensures Sound(v.(cells := v.cells[v.hi := Full(t)], pending := v.hi))
  {
    var v' := v.(cells := v.cells[v.hi := Full(t)], pending := v.hi);
    KeepsPlaces(v, v');
  }

  /** The stored task becomes part of the pool. */
  lemma Committed(v: View, t: Task)
    requires Sound(v) && 0 <= v.lo <= v.hi < |v.cells| && v.pending == v.hi
    requires v.cells[v.hi] == Full(t) && t !in v.spawned
    ensures Sound(v.(hi := v.hi + 1, pending := -1, spawned := v.spawned + {t}))
  {
    var v' := v.(hi := v.hi + 1, pending := -1, spawned := v.spawned + {t});
    KeepsPlaces(v, v');
    assert Inside(v', v.hi);
  }

  /** Tasks stay in the pool when no cell of it changes and it does not shrink. */
  lemma KeepsPlaces(v: View, v': View)
    requires |v'.cells| == |v.cells| && v'.lo <= v.lo && v.hi <= v'.hi
    requires forall j :: Inside(v, j) && 0 <= j < |v.cells| ==> v'.cells[j] == v.cells[j]
    requires v'.log == v.log && v'.freed == v.freed && v'.owner == v.owner && v'.thief == v.thief
    ensures forall t :: InPool(v, t) ==> InPool(v', t)
    ensures forall t :: Gone(v, t) == Gone(v', t)
  {
    assert forall t :: Returned(v, t) == Returned(v', t);
    forall t | InPool(v, t)
      ensures InPool(v', t)
    {
      var j :| Inside(v, j) && 0 <= j < |v.cells| && v.cells[j] == Full(t);
      assert Inside(v', j);
    }
  }

  lemma SpawnShape(s: State, a: Step)
    requires Shape(s) && (a.Store? || a.Commit? || a.Publish?) && Enabled(s, a)
    ensures Shape(Apply(s, a))
  {
  }

  lemma BeginGetShape(s: State, iso: nat)
    requires Shape(s) && Enabled(s, BeginGet(iso))
    ensures Shape(Apply(s, BeginGet(iso)))
  {
  }

  lemma LowerShape(s: State)
    requires Shape(s) && Enabled(s, Lower)
    ensures Shape(Apply(s, Lower))
  {
    assert Lo(Apply(s, Lower)) == Lo(s) && Hi(Apply(s, Lower)) == Hi(s);
  }

  lemma PeekShape(s: State)
    requires Shape(s) && Enabled(s, Peek)
    ensures Shape(Apply(s, Peek))
  {
    assert Lo(Apply(s, Peek)) == Lo(s) && Hi(Apply(s, Peek)) == Hi(s);
  }

  lemma LockPoolShape(s: State)
    requires Shape(s) && Enabled(s, LockPool)
    ensures Shape(Apply(s, LockPool))
  {
    assert s.thief == Away && Lo(s) == s.head;
  }

  lemma LeaveShape(s: State)
    requires Shape(s) && Enabled(s, Leave)
    ensures Shape(Apply(s, Leave))
  {
  }

  lemma BeginStealShape(s: State, iso: nat)
    requires Shape(s) && Enabled(s, BeginSteal(iso))
    ensures Shape(Apply(s, BeginSteal(iso)))
  {
    assert Lo(Apply(s, BeginSteal(iso))) == Lo(s) && Hi(Apply(s, BeginSteal(iso))) == Hi(s);
  }

  lemma RaiseShape(s: State)
    requires Shape(s) && Enabled(s, Raise)
    ensures Shape(Apply(s, Raise))
  {
    assert Lo(Apply(s, Raise)) == Lo(s) && Hi(Apply(s, Raise)) == Hi(s);
  }

  lemma ProbeShape(s: State)
    requires Shape(s) && Enabled(s, Probe)
    ensures Shape(Apply(s, Probe))
  {
    assert Lo(Apply(s, Probe)) == Lo(s) && Hi(Apply(s, Probe)) == Hi(s);
  }

  lemma RollBackShape(s: State, a: Step)
    requires Shape(s) && (a.Retreat? || a.Restore?) && Enabled(s, a)
    ensures Shape(Apply(s, a))
  {
    assert Lo(Apply(s, a)) == Lo(s) && Hi(Apply(s, a)) == Hi(s);
  }

  lemma UnlockShape(s: State)
    requires Shape(s) && Enabled(s, Unlock)
    ensures Shape(Apply(s, Unlock))
  {
    assert Lo(Apply(s, Unlock)) == Lo(s) && Hi(Apply(s, Unlock)) == Hi(s);
  }

  lemma ChosenShape(s: State, g: Get)
    requires Shape(s) && s.owner.Examining? && g.(result := s.owner.g.result) == s.owner.g && g.result.Some?
    requires Read(s, g.t) == Full(g.result.value) && Suits(g.result.value, g.iso)
    ensures Shape(s.(owner := Consuming(g)))
  {
    var s' := s.(owner := Consuming(g));
    assert Lo(s') == Lo(s) && Hi(s') == Hi(s) && Slack(s') == Slack(s);
  }

  /** The search goes on below the cell. */
  lemma OnwardShape(s: State, g: Get)
    requires Shape(s) && s.owner.Examining? && !g.checked && (g == s.owner.g || g == s.owner.g.(skipped := true))
    ensures Shape(NextRound(s, g))
  {
    var s' := NextRound(s, g);
    assert s'.owner.Lowering? && Lo(s') == Lo(s) && |s'.cells| == |s.cells| && Slack(s') == Slack(s);
    assert Hi(s') == if g.skipped then Hi(s) else g.t;
    if !g.skipped && s.thief.Taking? {
      assert Read(s', s.thief.f.h - 1) == Read(s, s.thief.f.h - 1);
    }
    assert ThiefShape(s');
  }

  /** The last cell held nothing for the owner. */
  lemma GiveUpShape(s: State, g: Get)
    requires Shape(s) && s.owner.Examining? && g.checked && g == s.owner.g && (g.result.None? || !Read(s, g.t).Full?)
    ensures Shape(NextRound(s, g))
  {
    var s' := NextRound(s, g);
    assert s'.owner.Leaving? && |s'.cells| == |s.cells|;
    if g.skipped {
      assert s'.cells == s.cells && Lo(s') == Lo(s) && Hi(s') == Hi(s);
    } else {
      assert s.pool == Empty && s.thief == Away;
    }
  }

  lemma ExamineShape(s: State)
    requires Shape(s) && Enabled(s, Examine)
    ensures Shape(Apply(s, Examine))
  {
    var g, c := s.owner.g, Read(s, s.owner.g.t);
    if c.Full? && (if g.checked then g.result.Some? else Suits(c.task, g.iso)) {
      ChosenShape(s, if g.checked then g else g.(result := Some(c.task)));
    } else if g.checked {
      GiveUpShape(s, g);
    } else {
      OnwardShape(s, if c.Full? then g.(skipped := true) else g);
    }
  }

  lemma FreedShape(s: State)
    requires Shape(s) && Enabled(s, Consume(true))
    ensures Shape(Apply(s, Consume(true)))
  {
  }

  lemma ConsumeShape(s: State, emptyProxy: bool)
    requires Shape(s) && Enabled(s, Consume(emptyProxy))
    ensures Shape(Apply(s, Consume(emptyProxy)))
  {
    if emptyProxy {
      FreedShape(s);
    }
  }

  lemma InspectShape(s: State, mailLikely: bool)
    requires Shape(s) && Enabled(s, Inspect(mailLikely))
    ensures Shape(Apply(s, Inspect(mailLikely)))
  {
    var s', f := Apply(s, Inspect(mailLikely)), s.thief.f;
    if !Read(s, f.h - 1).Full? && !f.skipped {
      CleanShape(s, s');
    } else {
      PassShape(s, s');
    }
  }

  /** A thief takes or skips what it reads without writing. */
  lemma PassShape(s: State, s': State)
    requires Shape(s) && s.thief.Inspecting?
    requires s' == s.(thief := s'.thief)
    requires s'.thief == Raising(s.thief.f.(skipped := true))
          || (s'.thief.Taking? && s'.thief.f == s.thief.f && Read(s, s.thief.f.h - 1) == Full(s'.thief.task)
              && Suits(s'.thief.task, s.thief.f.iso))
    ensures Shape(s')
  {
    assert Hi(s') == Hi(s) && Lo(s') == Lo(s) && Slack(s') == Slack(s);
    assert OwnerShape(s');
  }

  /** A thief that has skipped nothing poisons the hole under head. */
  lemma CleanShape(s: State, s': State)
    requires Shape(s) && s.thief.Inspecting? && !s.thief.f.skipped
    requires s' == s.(cells := Write(s.cells, s.thief.f.h0, Poison), thief := Raising(s.thief.f.(h0 := s.thief.f.h)))
    ensures Shape(s')
  {
    assert Hi(s') == Hi(s) && Lo(s') == Lo(s) + 1 == s.head;
    assert Slack(s') == Slack(s);
    assert ThiefShape(s');
    assert OwnerShape(s');
  }

  lemma TakeShape(s: State)
    requires Shape(s) && Enabled(s, Take)
    ensures Shape(Apply(s, Take))
  {
  }

  lemma StoreKeeps(s: State)
    requires Inv(s) && Enabled(s, Store)
    ensures Inv(Apply(s, Store))
  {
    SpawnShape(s, Store);
    var v, t := ViewOf(s), s.owner.task;
    Stored(v, t);
    assert ViewOf(Apply(s, Store)) == v.(cells := v.cells[v.hi := Full(t)], pending := v.hi);
  }

  lemma CommitKeeps(s: State)
    requires Inv(s) && Enabled(s, Commit)
    ensures Inv(Apply(s, Commit))
  {
    SpawnShape(s, Commit);
    var v, t := ViewOf(s), s.owner.task;
    Committed(v, t);
    assert ViewOf(Apply(s, Commit)) == v.(hi := v.hi + 1, pending := -1, spawned := v.spawned + {t});
  }

  /** Steps of the owner that leave the view alone. */
  lemma OwnerFrame(s: State, a: Step)
    requires Inv(s) && Enabled(s, a) && (a.Publish? || a.BeginGet? || a.Lower? || a.Peek?)
    ensures Inv(Apply(s, a))
  {
    OwnerFrameShape(s, a);
    SameView(s, a);
    SearchExamined(s, a);
  }

  lemma OwnerFrameShape(s: State, a: Step)
    requires Shape(s) && Enabled(s, a) && (a.Publish? || a.BeginGet? || a.Lower? || a.Peek?)
    ensures Shape(Apply(s, a))
  {
    if a.Publish? {
      SpawnShape(s, a);
    } else if a.BeginGet? {
      BeginGetShape(s, a.iso);
    } else if a.Lower? {
      LowerShape(s);
    } else {
      PeekShape(s);
    }
  }

  lemma SameView(s: State, a: Step)
    requires Shape(s) && Enabled(s, a)
    requires a.Publish? || a.BeginGet? || a.Lower? || a.Peek? || a.BeginSteal? || a.Raise? || a.Probe?
      || a.Retreat? || a.Restore?
    ensures ViewOf(Apply(s, a)) == ViewOf(s)
  {
  }

  lemma SearchExamined(s: State, a: Step)
    requires Shape(s) && Examined(s) && Enabled(s, a) && (a.Publish? || a.BeginGet? || a.Lower? || a.Peek?)
    ensures Examined(Apply(s, a))
  {
  }

  /** Steps of the thief that leave the view alone. */
  lemma ThiefFrame(s: State, a: Step)
    requires Inv(s) && Enabled(s, a) && (a.BeginSteal? || a.Raise? || a.Probe? || a.Retreat? || a.Restore?)
    ensures Inv(Apply(s, a))
  {
    ThiefFrameShape(s, a);
    SameView(s, a);
    ThiefExamined(s, a);
  }

  lemma ThiefFrameShape(s: State, a: Step)
    requires Shape(s) && Enabled(s, a) && (a.BeginSteal? || a.Raise? || a.Probe? || a.Retreat? || a.Restore?)
    ensures Shape(Apply(s, a))
  {
    if a.BeginSteal? {
      BeginStealShape(s, a.iso);
    } else if a.Raise? {
      RaiseShape(s);
    } else if a.Probe? {
      ProbeShape(s);
    } else {
      RollBackShape(s, a);
    }
  }

  lemma ThiefExamined(s: State, a: Step)
    requires Shape(s) && Examined(s) && Enabled(s, a)
    requires a.BeginSteal? || a.Raise? || a.Probe? || a.Retreat? || a.Restore?
    ensures Examined(Apply(s, a))
  {
    SameView(s, a);
    ExaminedCleared(s, Apply(s, a));
  }

  lemma LockPoolKeeps(s: State)
    requires Inv(s) && Enabled(s, LockPool)
    ensures Inv(Apply(s, LockPool))
  {
    LockPoolShape(s);
    var s', g := Apply(s, LockPool), s.owner.g;
    assert Lo(s) == s.head;
    if s.head > g.t && !g.skipped {
      Moved(ViewOf(s), ViewOf(s'));
    } else {
      assert ViewOf(s') == ViewOf(s);
    }
  }

  /** Clearing cells and raising the restored head keeps what the owner knows. */
  lemma ExaminedCleared(s: State, s': State)
    requires Examined(s) && s'.owner == s.owner && Lo(s) <= Lo(s')
    requires |s'.cells| == |s.cells|
    requires forall i :: 0 <= i < |s.cells| ==> s'.cells[i] == s.cells[i] || !s'.cells[i].Full?
    ensures Examined(s')
  {
  }

  lemma ExamineKeeps(s: State)
    requires Inv(s) && Enabled(s, Examine)
    ensures Inv(Apply(s, Examine))
  {
    ExamineShape(s);
    ExamineSound(s);
    ExamineExamined(s);
  }

  /** An empty pool may be anywhere. */
  lemma Resituated(v: View, v': View)
    requires Sound(v) && v' == v.(lo := v'.lo, hi := v'.hi) && (v' == v || (v.lo >= v.hi && v'.lo >= v'.hi))
    ensures Sound(v')
  {
    if v' != v {
      Moved(v, v');
    }
  }

  lemma ExamineSound(s: State)
    requires Shape(s) && Sound(ViewOf(s)) && Enabled(s, Examine)
    ensures Sound(ViewOf(Apply(s, Examine)))
  {
    var v, v', g := ViewOf(s), ViewOf(Apply(s, Examine)), s.owner.g;
    NotPoison(v, g.t);
    ExamineView(s);
    LookedAt(v, g);
    Resituated(if v.cells[g.t] == Hole && !g.skipped then v.(cells := v.cells[g.t := Poison], hi := g.t) else v, v');
  }

  lemma LookedAt(v: View, g: Get)
    requires Sound(v) && 0 <= v.lo <= g.t < v.hi <= |v.cells| && (!g.skipped ==> v.hi == g.t + 1) && v.pending == -1
    ensures Sound(if v.cells[g.t] == Hole && !g.skipped then v.(cells := v.cells[g.t := Poison], hi := g.t) else v)
  {
    if v.cells[g.t] == Hole && !g.skipped {
      PoisonHigh(v);
    }
  }

  lemma ExamineView(s: State)
    requires Shape(s) && Enabled(s, Examine) && Read(s, s.owner.g.t) != Poison
    ensures var v, v', g := ViewOf(s), ViewOf(Apply(s, Examine)), s.owner.g;
      && 0 <= v.lo <= g.t < v.hi <= |v.cells| && (!g.skipped ==> v.hi == g.t + 1)
      && var w := if v.cells[g.t] == Hole && !g.skipped then v.(cells := v.cells[g.t := Poison], hi := g.t) else v;
         v' == w.(lo := v'.lo, hi := v'.hi) && (v' == w || (w.lo >= w.hi && v'.lo >= v'.hi))
  {
  }

  lemma NotPoison(v: View, i: int)
    requires Content(v) && Inside(v, i) && 0 <= i < |v.cells|
    ensures v.cells[i] == Hole || v.cells[i].Full?
  {
  }

  lemma ExamineExamined(s: State)
    requires Shape(s) && Examined(s) && Enabled(s, Examine)
    ensures Examined(Apply(s, Examine))
  {
  }

  lemma ConsumeSound(s: State, emptyProxy: bool)
    requires Shape(s) && Sound(ViewOf(s)) && Enabled(s, Consume(emptyProxy))
    ensures Sound(ViewOf(Apply(s, Consume(emptyProxy))))
  {
    var v, g := ViewOf(s), s.owner.g;
    ConsumeView(s, emptyProxy);
    OwnerTakes(v, g.t, g.result.value);
    Resituated(Consumed(v, g, emptyProxy), ViewOf(Apply(s, Consume(emptyProxy))));
  }

  /** The view after the owner took the task it had found. */
  function Consumed(v: View, g: Get, emptyProxy: bool): View
    requires 0 <= g.t < |v.cells| && g.result.Some?
  {
    var w := if g.skipped then v.(cells := v.cells[g.t := Hole]) else v.(cells := v.cells[g.t := Poison], hi := g.t);
    if emptyProxy then w.(freed := v.freed + {g.result.value}) else w.(owner := {g.result.value})
  }

  lemma ConsumeView(s: State, emptyProxy: bool)
    requires Shape(s) && Enabled(s, Consume(emptyProxy))
    ensures var v, v', g := ViewOf(s), ViewOf(Apply(s, Consume(emptyProxy))), s.owner.g;
      && 0 <= v.lo <= g.t < v.hi <= |v.cells| && (!g.skipped ==> g.t == v.hi - 1)
      && v.cells[g.t] == Full(g.result.value) && v.owner == {} && v.pending == -1
      && var w := Consumed(v, g, emptyProxy);
         v' == w.(lo := v'.lo, hi := v'.hi) && (v' == w || (w.lo >= w.hi && v'.lo >= v'.hi))
  {
  }

  lemma ConsumeExamined(s: State, emptyProxy: bool)
    requires Shape(s) && Examined(s) && Enabled(s, Consume(emptyProxy))
    ensures Examined(Apply(s, Consume(emptyProxy)))
  {
  }

  lemma ConsumeKeeps(s: State, emptyProxy: bool)
    requires Inv(s) && Enabled(s, Consume(emptyProxy))
    ensures Inv(Apply(s, Consume(emptyProxy)))
  {
    ConsumeShape(s, emptyProxy);
    ConsumeSound(s, emptyProxy);
    ConsumeExamined(s, emptyProxy);
  }

  lemma LeaveKeeps(s: State)
    requires Inv(s) && Enabled(s, Leave)
    ensures Inv(Apply(s, Leave))
  {
    LeaveShape(s);
    var s', g := Apply(s, Leave), s.owner.g;
    if g.result.Some? {
      Logged(ViewOf(s), ViewOf(s'), Claim(g.result.value, g.iso));
    } else {
      assert ViewOf(s') == ViewOf(s);
    }
  }

  lemma InspectKeeps(s: State, mailLikely: bool)
    requires Inv(s) && Enabled(s, Inspect(mailLikely))
    ensures Inv(Apply(s, Inspect(mailLikely)))
  {
    InspectShape(s, mailLikely);
    InspectSound(s, mailLikely);
    InspectExamined(s, mailLikely);
  }

  lemma InspectExamined(s: State, mailLikely: bool)
    requires Shape(s) && Examined(s) && Enabled(s, Inspect(mailLikely))
    ensures Examined(Apply(s, Inspect(mailLikely)))
  {
    ExaminedCleared(s, Apply(s, Inspect(mailLikely)));
  }

  lemma InspectSound(s: State, mailLikely: bool)
    requires Shape(s) && Sound(ViewOf(s)) && Enabled(s, Inspect(mailLikely))
    ensures Sound(ViewOf(Apply(s, Inspect(mailLikely))))
  {
    var v, f := ViewOf(s), s.thief.f;
    assert Inside(v, f.h - 1) && 0 <= f.h - 1 < |v.cells|;
    NotPoison(v, f.h - 1);
    if !Read(s, f.h - 1).Full? && !f.skipped {
      PoisonLow(v);
    }
    InspectView(s, mailLikely);
  }

  lemma InspectView(s: State, mailLikely: bool)
    requires Shape(s) && Enabled(s, Inspect(mailLikely))
    ensures var v, f := ViewOf(s), s.thief.f;
      && 0 <= v.lo <= f.h - 1 < v.hi <= |v.cells| && (!f.skipped ==> v.lo == f.h - 1)
      && ViewOf(Apply(s, Inspect(mailLikely))) ==
           if Read(s, f.h - 1).Full? || f.skipped then v else v.(cells := v.cells[v.lo := Poison], lo := v.lo + 1)
  {
  }

  lemma TakeKeeps(s: State)
    requires Inv(s) && Enabled(s, Take)
    ensures Inv(Apply(s, Take))
  {
    TakeShape(s);
    TakeSound(s);
    TakeExamined(s);
  }

  lemma TakeSound(s: State)
    requires Shape(s) && Sound(ViewOf(s)) && Enabled(s, Take)
    ensures Sound(ViewOf(Apply(s, Take)))
  {
    TakeView(s);
    ThiefTakes(ViewOf(s), s.thief.f.h - 1, s.thief.task);
  }

  lemma TakeExamined(s: State)
    requires Shape(s) && Examined(s) && Enabled(s, Take)
    ensures Examined(Apply(s, Take))
  {
    TakeView(s);
    ExaminedCleared(s, Apply(s, Take));
  }

  lemma TakeView(s: State)
    requires Shape(s) && Enabled(s, Take)
    ensures var v, i := ViewOf(s), s.thief.f.h - 1;
      && 0 <= v.lo <= i < v.hi <= |v.cells| && v.cells[i] == Full(s.thief.task) && v.thief == {} && v.pending != i
      && (!s.thief.f.skipped ==> i == v.lo)
      && ViewOf(Apply(s, Take)) ==
           if s.thief.f.skipped then v.(cells := v.cells[i := Hole], thief := {s.thief.task})
           else v.(cells := v.cells[i := Poison], lo := i + 1, thief := {s.thief.task})
  {
  }

  lemma UnlockKeeps(s: State)
    requires Inv(s) && Enabled(s, Unlock)
    ensures Inv(Apply(s, Unlock))
  {
    UnlockShape(s);
    var s', f := Apply(s, Unlock), s.thief.f;
    if s.thief.result.Some? {
      Logged(ViewOf(s), ViewOf(s'), Claim(s.thief.result.value, f.iso));
    } else {
      assert ViewOf(s') == ViewOf(s);
    }
  }

  lemma SpawnKeeps(s: State, t: Task)
    requires Inv(s) && Enabled(s, Spawn(t))
    ensures Inv(Apply(s, Spawn(t)))
  {
    var s' := Apply(s, Spawn(t));
    if RoomForOne(s) {
      assert ViewOf(s') == ViewOf(s);
    } else if |s.cells| == 0 {
      AllocatedEnough(FirstSize(1));
      FirstPool(s, s');
    } else {
      RelocatedPool(s, s');
    }
  }

  lemma FirstPool(s: State, s': State)
    requires Inv(s) && s.owner.Idle? && s.cells == [] && s'.owner.Storing? && s'.owner.task !in s.spawned
    requires AllocatedSize(FirstSize(1)) > 0
    requires s' == s.(cells := Fresh(AllocatedSize(FirstSize(1))), owner := Storing(s'.owner.task, 0))
    ensures Inv(s')
  {
    var v, v' := ViewOf(s), ViewOf(s');
    assert forall x :: !InPool(v, x) && Returned(v, x) == Returned(v', x);
  }

  /** Relocation keeps the tasks of the pool and moves them to the front. */
  lemma RelocatedPool(s: State, s': State)
    requires Inv(s) && s.owner.Idle? && s.pool != Locked && s.cells != []
    requires s'.owner.Storing? && s'.owner.task !in s.spawned
    requires var r := Relocated(s.cells, s.head, s.tail, 1);
             s' == s.(cells := r.cells, head := 0, tail := r.tail, owner := Storing(s'.owner.task, r.tail))
    ensures Inv(s')
  {
    var v, v', was := ViewOf(s), ViewOf(s'), s.cells[s.head..s.tail];
    RelocatedLayout(s.cells, s.head, s.tail, 1);
    Survivors(v, was);
    RelocatedView(v, v', NonNull(was));
  }

  /** The survivors of a sound pool are distinct live tasks. */
  lemma Survivors(v: View, was: seq<Cell>)
    requires Sound(v) && 0 <= v.lo <= v.hi <= |v.cells| && was == v.cells[v.lo..v.hi]
    ensures forall c :: c in NonNull(was) ==> c.Full? && c.task in v.spawned && !Gone(v, c.task)
    ensures forall i, j :: 0 <= i < j < |NonNull(was)| ==> NonNull(was)[i] != NonNull(was)[j]
    ensures forall t :: InPool(v, t) ==> Full(t) in NonNull(was)
  {
    NonNullKeeps(was);
    LiveCells(v, was);
    DistinctCells(v, was);
    PoolCells(v, was);
  }

  lemma LiveCells(v: View, was: seq<Cell>)
    requires Content(v) && Unique(v) && 0 <= v.lo <= v.hi <= |v.cells| && was == v.cells[v.lo..v.hi]
    ensures forall c :: c in was && c != Hole ==> c.Full? && c.task in v.spawned && !Gone(v, c.task)
  {
    forall c | c in was && c != Hole
      ensures c.Full? && c.task in v.spawned && !Gone(v, c.task)
    {
      var i :| 0 <= i < |was| && was[i] == c;
      assert v.cells[v.lo + i] == c && Inside(v, v.lo + i);
    }
  }

  lemma DistinctCells(v: View, was: seq<Cell>)
    requires Content(v) && Unique(v) && 0 <= v.lo <= v.hi <= |v.cells| && was == v.cells[v.lo..v.hi]
    ensures forall i, j :: 0 <= i < j < |was| && was[i] != Hole ==> was[i] != was[j]
  {
    forall i, j | 0 <= i < j < |was| && was[i] != Hole
      ensures was[i] != was[j]
    {
      assert v.cells[v.lo + i] == was[i] && v.cells[v.lo + j] == was[j] && Inside(v, v.lo + i);
    }
  }

  lemma PoolCells(v: View, was: seq<Cell>)
    requires 0 <= v.lo <= v.hi <= |v.cells| && was == v.cells[v.lo..v.hi]
    ensures forall t :: InPool(v, t) ==> Full(t) in was
  {
    forall t | InPool(v, t)
      ensures Full(t) in was
    {
      var j :| Inside(v, j) && 0 <= j < |v.cells| && v.cells[j] == Full(t);
      assert was[j - v.lo] == Full(t);
    }
  }

  lemma RelocatedView(v: View, v': View, live: seq<Cell>)
    requires Sound(v)
    requires forall c :: c in live ==> c.Full? && c.task in v.spawned && !Gone(v, c.task)
    requires forall i, j :: 0 <= i < j < |live| ==> live[i] != live[j]
    requires forall t :: InPool(v, t) ==> Full(t) in live
    requires v' == v.(cells := v'.cells, lo := 0, hi := |live|, pending := -1)
    requires |live| <= |v'.cells| && v'.cells[..|live|] == live
    requires forall i :: |live| <= i < |v'.cells| ==> v'.cells[i] == Poison
    ensures Sound(v')
  {
    assert forall i :: 0 <= i < |live| ==> v'.cells[i] == live[i] && live[i] in live;
    assert forall t :: Returned(v, t) == Returned(v', t);
    assert forall t :: Gone(v, t) == Gone(v', t);
    forall t | InPool(v, t)
      ensures InPool(v', t)
    {
      var k :| 0 <= k < |live| && live[k] == Full(t);
      assert Inside(v', k);
    }
  }
}
