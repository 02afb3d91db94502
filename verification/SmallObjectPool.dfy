/**
 A thread's pool of small objects (small_object_pool_impl in src/tbb/small_object_pool.cpp): the owner allocates from
 and frees to a private list, other threads free to a public list, and after the owner destroys the pool the last of
 them releases it. A step is one atomic access or a stretch that touches only the owner's fields or one object.
 */
module SmallObjectPool {
  import opened Wrappers
  import opened Sums
  import opened Sequences

  /** m_public_list: null, an object, or the mark dead_public_list. */
  datatype Head = Null | At(o: nat) | Dead

  datatype Phase =
    | Listed               // on a free list
    | Out                  // allocated
    | Begun                // being freed by another thread, about to load m_public_list
    | Pushing(seen: Head)  // about to try seen -> this object
    | Dropping             // found the dead mark; deallocated, about to increment m_public_counter
    | Gone                 // deallocated and counted there
    | Cleaned              // deallocated by cleanup_list

  datatype Object = Object(next: Option<nat>, phase: Phase)

  datatype Owner =
    | Resting
    | Exchanging                  // saw a public list, about to take it
    | CleanPrivate(removed: nat)  // in cleanup_list of the private list
    | Marking                     // about to exchange the public list for the dead mark
    | CleanPublic(removed: nat)   // in cleanup_list of the public list
    | Subtracting                 // about to subtract m_private_counter from m_public_counter
    | Finished

  datatype State = State(
    objects: seq<Object>,
    private: Option<nat>,         // m_private_list
    public: Head,                 // m_public_list
    cleaning: Option<nat>,        // the list cleanup_list walks
    owner: Owner,
    privateCounter: int,          // m_private_counter
    publicCounter: int,           // m_public_counter
    condemned: nat,               // threads that saw the counter reach 0 and are about to release the pool
    released: nat,                // history: how often the pool was released
    mine: seq<nat>,               // history: the private list, or the rest of the list cleanup_list walks
    theirs: seq<nat>)             // history: the public list

  datatype Step =
    | TakePrivate | LookPublic | TakePublic | FreeOwn(o: nat)
    | BeginFree(o: nat) | LoadPublic(o: nat) | Push(o: nat) | Drop(o: nat)
    | BeginDestroy | CleanOne | CleanDone | Mark | Subtract | Release

  predicate Init(s: State) {
    s == State([], None, Null, None, Resting, 0, 0, 0, 0, [], [])
  }

  function Pointer(h: Head): Option<nat> { if h.At? then Some(h.o) else None }

  predicate In(s: State, o: nat, p: Phase) { o < |s.objects| && s.objects[o].phase == p }

  predicate Enabled(s: State, a: Step) {
    match a
    case TakePrivate => s.owner == Resting && s.private.Some? && s.private.value < |s.objects| && s.mine != []
    case LookPublic => s.owner == Resting && s.private == None
    case TakePublic => s.owner == Exchanging && s.public.At? && s.public.o < |s.objects| && s.theirs != []
    case FreeOwn(o) => s.owner == Resting && In(s, o, Out)
    case BeginFree(o) => In(s, o, Out)
    case LoadPublic(o) => In(s, o, Begun)
    case Push(o) => o < |s.objects| && s.objects[o].phase.Pushing?
    case Drop(o) => In(s, o, Dropping)
    case BeginDestroy => s.owner == Resting
    case CleanOne => (s.owner.CleanPrivate? || s.owner.CleanPublic?) && s.cleaning.Some?
      && s.cleaning.value < |s.objects| && s.mine != []
    case CleanDone => (s.owner.CleanPrivate? || s.owner.CleanPublic?) && s.cleaning == None
    case Mark => s.owner == Marking
    case Subtract => s.owner == Subtracting
    case Release => s.condemned > 0
  }

  function Put(s: State, o: nat, obj: Object): State
    requires o < |s.objects|
  {
    s.(objects := s.objects[o := obj])
  }

  /** The loop of deallocate_impl after it has seen head h. */
  function Seen(obj: Object, h: Head): Object {
    if h == Dead then obj.(phase := Dropping) else Object(Pointer(h), Pushing(h))
  }

  /** Adds to m_public_counter and notes whether it reached 0. */
  function Count(s: State, delta: int): State {
    s.(publicCounter := s.publicCounter + delta,
       condemned := if s.publicCounter + delta == 0 then s.condemned + 1 else s.condemned)
  }

  function Apply(s: State, a: Step): State
    requires Enabled(s, a)
  {
    match a
    case TakePrivate =>
      var o := s.private.value;
      Put(s, o, s.objects[o].(phase := Out)).(private := s.objects[o].next, mine := s.mine[1..])
    case LookPublic =>
      if s.public == Null then s.(objects := s.objects + [Object(None, Out)], privateCounter := s.privateCounter + 1)
      else s.(owner := Exchanging)
    case TakePublic =>
      var o := s.public.o;
      Put(s, o, s.objects[o].(phase := Out)).(public := Null, private := s.objects[o].next, owner := Resting,
        mine := s.theirs[1..], theirs := [])
    case FreeOwn(o) => Put(s, o, Object(s.private, Listed)).(private := Some(o), mine := [o] + s.mine)
    case BeginFree(o) => Put(s, o, s.objects[o].(phase := Begun))
    case LoadPublic(o) => Put(s, o, Seen(s.objects[o], s.public))
    case Push(o) =>
      if s.public == s.objects[o].phase.seen
      then Put(s, o, s.objects[o].(phase := Listed)).(public := At(o), theirs := [o] + s.theirs)
      else Put(s, o, Seen(s.objects[o], s.public))
    case Drop(o) => Count(Put(s, o, s.objects[o].(phase := Gone)), 1)
    case BeginDestroy => s.(owner := CleanPrivate(0), cleaning := s.private)
    case CleanOne =>
      var o := s.cleaning.value;
      var owner := if s.owner.CleanPrivate? then CleanPrivate(s.owner.removed + 1)
        else CleanPublic(s.owner.removed + 1);
      Put(s, o, s.objects[o].(phase := Cleaned)).(cleaning := s.objects[o].next, owner := owner, mine := s.mine[1..])
    case CleanDone =>
      s.(privateCounter := s.privateCounter - s.owner.removed,
        owner := if s.owner.CleanPrivate? then Marking else Subtracting)
    case Mark =>
      s.(cleaning := Pointer(s.public), public := Dead, owner := CleanPublic(0), mine := s.theirs, theirs := [])
    case Subtract => Count(s, -s.privateCounter).(owner := Finished)
    case Release => s.(condemned := s.condemned - 1, released := s.released + 1)
  }

  // ---------------------------------------------------------------- invariant

  function Ptr(q: seq<nat>, k: nat): Option<nat> { if k < |q| then Some(q[k]) else None }

  /** The next pointers from head spell out q. */
  predicate Chain(objects: seq<Object>, head: Option<nat>, q: seq<nat>) {
    head == Ptr(q, 0) && forall k :: 0 <= k < |q| ==> q[k] < |objects| && objects[q[k]].next == Ptr(q, k + 1)
  }

  predicate Alive(owner: Owner) { owner == Resting || owner == Exchanging }

  predicate Cleaning(owner: Owner) { owner.CleanPrivate? || owner.CleanPublic? }

  /** The list only the owner sees. */
  function OwnHead(s: State): Option<nat> { if Cleaning(s.owner) then s.cleaning else s.private }

  predicate OnList(s: State, o: nat) { o in s.mine || o in s.theirs }

  predicate ObjectOk(s: State, o: nat)
    requires o < |s.objects|
  {
    var obj := s.objects[o];
    && (obj.phase == Listed <==> OnList(s, o))
    && (obj.phase.Pushing? ==> obj.phase.seen != Dead && obj.next == Pointer(obj.phase.seen))
    && (obj.phase == Dropping || obj.phase == Gone ==> s.public == Dead)
    && (obj.phase == Cleaned ==> !Alive(s.owner))
  }

  ghost predicate Objects(s: State) { forall o :: 0 <= o < |s.objects| ==> ObjectOk(s, o) }

  ghost predicate Apart(s: State) {
    && Distinct(s.mine) && Distinct(s.theirs)
    && (forall o :: o in s.mine ==> o < |s.objects| && o !in s.theirs)
    && (forall o :: o in s.theirs ==> o < |s.objects|)
  }

  predicate OwnerOk(s: State) {
    && (s.public == Dead <==> s.owner.CleanPublic? || s.owner == Subtracting || s.owner == Finished)
    && (s.owner == Exchanging ==> s.public.At? && s.mine == [])
    && (s.owner == Marking || s.owner == Subtracting || s.owner == Finished ==> s.mine == [])
    && (s.owner == Resting || s.owner == Exchanging || Cleaning(s.owner) ==> OwnHead(s) == Ptr(s.mine, 0))
  }

  ghost predicate Chains(s: State) {
    Chain(s.objects, Ptr(s.mine, 0), s.mine) && Chain(s.objects, Pointer(s.public), s.theirs)
  }

  ghost predicate ListsOk(s: State) { Chains(s) && Apart(s) && Objects(s) && OwnerOk(s) }

  // ---------------------------------------------------------------- lists

  lemma ChainFrame(objects: seq<Object>, o: nat, obj: Object, head: Option<nat>, q: seq<nat>)
    requires o < |objects| && o !in q && Chain(objects, head, q)
    ensures Chain(objects[o := obj], head, q)
  {
    forall k | 0 <= k < |q|
      ensures q[k] != o
    {
      assert q[k] in q;
    }
  }

  lemma ChainTail(objects: seq<Object>, obj: Object, head: Option<nat>, q: seq<nat>)
    requires q != [] && Distinct(q) && Chain(objects, head, q)
    ensures head == Some(q[0]) && q[0] < |objects| && Chain(objects[q[0] := obj], objects[q[0]].next, q[1..])
  {
  }

  lemma ChainPush(objects: seq<Object>, o: nat, obj: Object, head: Option<nat>, q: seq<nat>)
    requires o < |objects| && o !in q && obj.next == head && Chain(objects, head, q)
    ensures Chain(objects[o := obj], Some(o), [o] + q)
  {
    ChainFrame(objects, o, obj, head, q);
    var q' := [o] + q;
    forall k | 0 <= k < |q'|
      ensures q'[k] < |objects| && objects[o := obj][q'[k]].next == Ptr(q', k + 1)
    {
      assert k > 0 ==> q'[k] == q[k - 1];
    }
  }

  // ---------------------------------------------------------------- steps that change an object on no list

  lemma FreeObject(s: State, a: Step, x: nat)
    requires Enabled(s, a)
    requires a.BeginFree? || a.LoadPublic? || a.Drop? || (a.Push? && s.public != s.objects[a.o].phase.seen)
    requires x < |s.objects| && ObjectOk(s, x)
    ensures ObjectOk(Apply(s, a), x)
  {
  }

  lemma FreeSteps(s: State, a: Step)
    requires ListsOk(s) && Enabled(s, a)
    requires a.BeginFree? || a.LoadPublic? || a.Drop? || (a.Push? && s.public != s.objects[a.o].phase.seen)
    ensures ListsOk(Apply(s, a))
  {
    var s', o := Apply(s, a), a.o;
    assert ObjectOk(s, o);
    assert s'.objects == s.objects[o := s'.objects[o]];
    ChainFrame(s.objects, o, s'.objects[o], Ptr(s.mine, 0), s.mine);
    ChainFrame(s.objects, o, s'.objects[o], Pointer(s.public), s.theirs);
    forall x | 0 <= x < |s'.objects|
      ensures ObjectOk(s', x)
    {
      assert ObjectOk(s, x);
      FreeObject(s, a, x);
    }
  }

  // ---------------------------------------------------------------- steps that move an object off a list

  /** The first object leaves the owner's list. */
  predicate Leaves(s: State, s': State, q: seq<nat>, phase: Phase) {
    && q != [] && q[0] < |s.objects| && s'.objects == s.objects[q[0] := s.objects[q[0]].(phase := phase)]
    && s'.mine == q[1..] && (phase == Out || phase == Cleaned)
  }

  lemma LeavesObject(s: State, s': State, q: seq<nat>, phase: Phase, x: nat)
    requires Leaves(s, s', q, phase) && Distinct(q) && x < |s.objects| && ObjectOk(s, x)
    requires if q == s.mine then s'.theirs == s.theirs && s'.public == s.public && q[0] !in s.theirs
      else q == s.theirs && s.mine == s'.theirs == []
    requires (s.public == Dead <==> s'.public == Dead) && (Alive(s.owner) <==> Alive(s'.owner))
    requires phase == Cleaned ==> !Alive(s'.owner)
    ensures ObjectOk(s', x)
  {
    assert x in q <==> x == q[0] || x in q[1..];
  }

  lemma TakeSteps(s: State, a: Step)
    requires ListsOk(s) && Enabled(s, a) && (a.TakePrivate? || a.TakePublic? || a.CleanOne?)
    ensures ListsOk(Apply(s, a))
  {
    var s', q := Apply(s, a), if a.TakePublic? then s.theirs else s.mine;
    var phase := if a.CleanOne? then Cleaned else Out;
    assert Leaves(s, s', q, phase);
    ChainTail(s.objects, s'.objects[q[0]], Ptr(q, 0), q);
    assert q[0] in q;
    if !a.TakePublic? {
      ChainFrame(s.objects, q[0], s'.objects[q[0]], Pointer(s.public), s.theirs);
    }
    TakeApart(s, s', q);
    forall x | 0 <= x < |s'.objects|
      ensures ObjectOk(s', x)
    {
      assert ObjectOk(s, x);
      LeavesObject(s, s', q, phase, x);
    }
  }

  lemma TakeApart(s: State, s': State, q: seq<nat>)
    requires Apart(s) && q != [] && |s'.objects| == |s.objects| && s'.mine == q[1..]
    requires (q == s.mine && s'.theirs == s.theirs) || (q == s.theirs && s'.theirs == [])
    ensures Apart(s')
  {
    assert forall o :: o in q[1..] ==> o in q;
  }

  // ---------------------------------------------------------------- steps that put an object on a list

  lemma JoinsObject(s: State, s': State, o: nat, x: nat)
    requires o < |s.objects| && x < |s.objects| == |s'.objects| && ObjectOk(s, x)
    requires s'.owner == s.owner && s'.objects[o].phase == Listed
    requires x != o ==> s'.objects[x] == s.objects[x]
    requires (s'.mine == [o] + s.mine && s'.theirs == s.theirs) || (s'.mine == s.mine && s'.theirs == [o] + s.theirs)
    requires s.public == Dead <==> s'.public == Dead
    ensures ObjectOk(s', x)
  {
  }

  lemma FreeOwnOk(s: State, o: nat)
    requires ListsOk(s) && Enabled(s, FreeOwn(o))
    ensures ListsOk(Apply(s, FreeOwn(o)))
  {
    var s', obj := Apply(s, FreeOwn(o)), Object(s.private, Listed);
    assert ObjectOk(s, o);
    ChainPush(s.objects, o, obj, Ptr(s.mine, 0), s.mine);
    ChainFrame(s.objects, o, obj, Pointer(s.public), s.theirs);
    forall x | 0 <= x < |s'.objects|
      ensures ObjectOk(s', x)
    {
      assert ObjectOk(s, x);
      JoinsObject(s, s', o, x);
    }
  }

  /** The exchange succeeds only if the head is the one the object already points to. */
  lemma PushOk(s: State, o: nat)
    requires ListsOk(s) && Enabled(s, Push(o)) && s.public == s.objects[o].phase.seen
    ensures ListsOk(Apply(s, Push(o)))
  {
    var s', obj := Apply(s, Push(o)), s.objects[o].(phase := Listed);
    assert ObjectOk(s, o);
    ChainPush(s.objects, o, obj, Pointer(s.public), s.theirs);
    ChainFrame(s.objects, o, obj, Ptr(s.mine, 0), s.mine);
    forall x | 0 <= x < |s'.objects|
      ensures ObjectOk(s', x)
    {
      assert ObjectOk(s, x);
      JoinsObject(s, s', o, x);
    }
  }

  // ---------------------------------------------------------------- steps that change no object

  lemma ChainGrows(objects: seq<Object>, obj: Object, head: Option<nat>, q: seq<nat>)
    requires Chain(objects, head, q)
    ensures Chain(objects + [obj], head, q)
  {
  }

  lemma LookPublicOk(s: State)
    requires ListsOk(s) && Enabled(s, LookPublic)
    ensures ListsOk(Apply(s, LookPublic))
  {
    var s' := Apply(s, LookPublic);
    ChainGrows(s.objects, Object(None, Out), Ptr(s.mine, 0), s.mine);
    ChainGrows(s.objects, Object(None, Out), Pointer(s.public), s.theirs);
    forall x | 0 <= x < |s'.objects|
      ensures ObjectOk(s', x)
    {
      assert x < |s.objects| ==> ObjectOk(s, x);
    }
  }

  /** The steps of destroy that change no object. */
  lemma DestroySteps(s: State, a: Step)
    requires ListsOk(s) && Enabled(s, a) && (a.BeginDestroy? || a.CleanDone? || a.Mark? || a.Subtract? || a.Release?)
    ensures ListsOk(Apply(s, a))
  {
    var s' := Apply(s, a);
    forall x | 0 <= x < |s'.objects|
      ensures ObjectOk(s', x)
    {
      assert ObjectOk(s, x);
      assert OnList(s', x) <==> OnList(s, x);
    }
  }

  lemma ListsKept(s: State, a: Step)
    requires ListsOk(s) && Enabled(s, a)
    ensures ListsOk(Apply(s, a))
  {
    match a
    case TakePrivate => TakeSteps(s, a);
    case LookPublic => LookPublicOk(s);
    case TakePublic => TakeSteps(s, a);
    case FreeOwn(o) => FreeOwnOk(s, o);
    case CleanOne => TakeSteps(s, a);
    case BeginFree(_) => FreeSteps(s, a);
    case LoadPublic(_) => FreeSteps(s, a);
    case Drop(_) => FreeSteps(s, a);
    case Push(o) =>
      if s.public == s.objects[o].phase.seen {
        PushOk(s, o);
      } else {
        FreeSteps(s, a);
      }
    case _ => DestroySteps(s, a);
  }

  // ---------------------------------------------------------------- counters

  function IsListed(obj: Object): int { if obj.phase == Listed then 1 else 0 }

  /** Allocated, or being freed by another thread and not counted yet. */
  function Outstanding(obj: Object): int {
    if obj.phase == Out || obj.phase == Begun || obj.phase.Pushing? || obj.phase == Dropping then 1 else 0
  }

  function IsGone(obj: Object): int { if obj.phase == Gone then 1 else 0 }

  function IsCleaned(obj: Object): int { if obj.phase == Cleaned then 1 else 0 }

  function Removed(owner: Owner): nat { if owner.CleanPrivate? || owner.CleanPublic? then owner.removed else 0 }

  ghost predicate Counted(s: State) {
    && Sum(s.objects, IsListed) == |s.mine| + |s.theirs|
    && s.privateCounter == |s.objects| - Sum(s.objects, IsCleaned) + Removed(s.owner)
    && s.publicCounter == Sum(s.objects, IsGone) - (if s.owner == Finished then s.privateCounter else 0)
    && s.condemned + s.released == (if s.owner == Finished && s.publicCounter == 0 then 1 else 0)
  }

  lemma {:induction false} EveryObjectOnce(objects: seq<Object>)
    ensures |objects| ==
      Sum(objects, IsListed) + Sum(objects, Outstanding) + Sum(objects, IsGone) + Sum(objects, IsCleaned)
  {
    if objects != [] {
      EveryObjectOnce(objects[..|objects| - 1]);
    }
  }

  /** After the subtraction the public counter is minus the number of objects still out. */
  lemma FinalCounter(s: State)
    requires ListsOk(s) && Counted(s) && (s.owner == Finished || s.owner == Subtracting)
    ensures Sum(s.objects, IsGone) - s.privateCounter == -Sum(s.objects, Outstanding) <= 0
  {
    EveryObjectOnce(s.objects);
    SumNonNegative(s.objects, Outstanding);
  }

  lemma PutSums(objects: seq<Object>, o: nat, obj: Object)
    requires o < |objects|
    ensures var objects' := objects[o := obj];
      && Sum(objects', IsListed) == Sum(objects, IsListed) - IsListed(objects[o]) + IsListed(obj)
      && Sum(objects', IsGone) == Sum(objects, IsGone) - IsGone(objects[o]) + IsGone(obj)
      && Sum(objects', IsCleaned) == Sum(objects, IsCleaned) - IsCleaned(objects[o]) + IsCleaned(obj)
  {
    SumUpdate(objects, o, obj, IsListed);
    SumUpdate(objects, o, obj, IsGone);
    SumUpdate(objects, o, obj, IsCleaned);
  }

  /** The object a step changes, if any. */
  function Changed(s: State, a: Step): Option<nat>
    requires Enabled(s, a)
  {
    match a
    case TakePrivate => s.private
    case TakePublic => Some(s.public.o)
    case CleanOne => s.cleaning
    case FreeOwn(o) => Some(o)
    case BeginFree(o) => Some(o)
    case LoadPublic(o) => Some(o)
    case Push(o) => Some(o)
    case Drop(o) => Some(o)
    case _ => None
  }

  lemma ChangedIs(s: State, a: Step)
    requires ListsOk(s) && Enabled(s, a) && Changed(s, a).Some?
    ensures var o, s' := Changed(s, a).value, Apply(s, a);
      && o < |s.objects| && s'.objects == s.objects[o := s'.objects[o]]
      && |s'.mine| + |s'.theirs| - |s.mine| - |s.theirs| == IsListed(s'.objects[o]) - IsListed(s.objects[o])
  {
    var o := Changed(s, a).value;
    assert ObjectOk(s, o);
    assert s.mine != [] ==> s.mine[0] in s.mine;
    assert s.theirs != [] ==> s.theirs[0] in s.theirs;
  }

  /** What the steps other than Drop do to the counters and the sums they balance. */
  lemma ChangedCounters(s: State, a: Step)
    requires Enabled(s, a) && Changed(s, a).Some? && ListsOk(s)
    ensures var o, s' := Changed(s, a).value, Apply(s, a);
      && o < |s.objects| == |s'.objects|
      && s'.privateCounter == s.privateCounter && s'.released == s.released
      && (s'.owner == Finished <==> s.owner == Finished)
      && Removed(s'.owner) - Removed(s.owner) == IsCleaned(s'.objects[o]) - IsCleaned(s.objects[o])
      && s'.publicCounter - s.publicCounter == IsGone(s'.objects[o]) - IsGone(s.objects[o])
      && (!a.Drop? ==> s'.publicCounter == s.publicCounter && s'.condemned == s.condemned)
  {
    assert ObjectOk(s, Changed(s, a).value);
  }

  lemma CountedKept(s: State, a: Step)
    requires ListsOk(s) && Counted(s) && Enabled(s, a)
    ensures Counted(Apply(s, a))
  {
    if Changed(s, a).Some? {
      ChangeCounted(s, a);
    } else {
      RestCounted(s, a);
    }
  }

  lemma ChangeCounted(s: State, a: Step)
    requires ListsOk(s) && Counted(s) && Enabled(s, a) && Changed(s, a).Some?
    ensures Counted(Apply(s, a))
  {
    var s', o := Apply(s, a), Changed(s, a).value;
    ChangedIs(s, a);
    ChangedCounters(s, a);
    PutSums(s.objects, o, s'.objects[o]);
    if a.Drop? {
      DropCounted(s, o);
    }
  }

  lemma RestCounted(s: State, a: Step)
    requires ListsOk(s) && Counted(s) && Enabled(s, a) && Changed(s, a) == None
    ensures Counted(Apply(s, a))
  {
    var s' := Apply(s, a);
    if a.LookPublic? && s.public == Null {
      SumAppend(s.objects, Object(None, Out), IsListed);
      SumAppend(s.objects, Object(None, Out), IsGone);
      SumAppend(s.objects, Object(None, Out), IsCleaned);
    } else {
      assert s'.objects == s.objects && |s'.mine| + |s'.theirs| == |s.mine| + |s.theirs|;
    }
  }

  /** A late free finds the counter at 0 only if it is the last one. */
  lemma DropCounted(s: State, o: nat)
    requires ListsOk(s) && Counted(s) && Enabled(s, Drop(o))
    ensures s.condemned + s.released == 0 && (s.publicCounter + 1 == 0 ==> s.owner == Finished)
  {
    SumNonNegative(s.objects, IsGone);
    if s.owner == Finished {
      FinalCounter(s);
      SumAtLeast(s.objects, o, Outstanding);
    }
  }
}
