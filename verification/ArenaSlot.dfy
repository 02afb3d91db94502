/** prepare_task_pool of src/tbb/arena_slot.h, in place on the pool array. */
module ArenaSlot {
  import opened Relocation

  class Slot {
    var pool: array<Cell>   // task_pool_ptr
    var head: nat
    var tail: nat

    ghost predicate Valid()
      reads this, pool
    {
      && head <= tail <= pool.Length
      && (pool.Length == 0 ==> tail == 0)
    }

    constructor ()
      ensures Valid() && head == 0 && tail == 0 && pool.Length == 0
    {
      pool := new Cell[0];
      head, tail := 0, 0;
    }

    /** allocate_task_pool: the fresh pool is filled with the canary pattern. */
    method AllocateTaskPool(n: nat)
      modifies this`pool
      ensures fresh(pool) && pool[..] == Fresh(AllocatedSize(n))
    {
      pool := new Cell[AllocatedSize(n)](_ => Poison);
    }

    /** Makes room for n more tasks and returns the tail to store them at. */
    method PrepareTaskPool(n: nat) returns (t: nat)
      requires Valid()
      modifies this, pool
      ensures Valid() && t == tail && t + n <= pool.Length
      ensures old(tail) + n <= old(pool.Length) ==>
        pool == old(pool) && pool[..] == old(pool[..]) && head == old(head) && tail == old(tail)
      ensures old(tail) + n > old(pool.Length) == 0 ==>
        pool[..] == Fresh(AllocatedSize(FirstSize(n))) && head == 0 && tail == 0
      ensures old(tail) + n > old(pool.Length) > 0 ==>
        Pool(pool[..], tail) == Relocated(old(pool[..]), old(head), old(tail), n) && head == 0
    {
      if tail + n <= pool.Length {
        return tail;
      }
      if pool.Length == 0 {
        AllocateTaskPool(FirstSize(n));
        AllocatedEnough(FirstSize(n));
        return 0;
      }
      t := Relocate(n);
    }

    /** The part of prepare_task_pool that runs under the pool lock. */
    method Relocate(n: nat) returns (t: nat)
      requires Valid() && pool.Length > 0
      modifies this, pool
      ensures Valid() && t == tail && t + n <= pool.Length && head == 0
      ensures Pool(pool[..], tail) == Relocated(old(pool[..]), old(head), old(tail), n)
    {
      var tasks := CountTasks(pool, head, tail);
      var newSize := n + tasks;
      if newSize > pool.Length - MIN_POOL_SIZE / 4 {
        if newSize < 2 * pool.Length { newSize := 2 * pool.Length; }
        t := MoveToNewPool(newSize);
      } else {
        t := Compact();
      }
      AllocatedEnough(newSize);
      head, tail := 0, t;
    }

    /** Copies the tasks to a pool of at least newSize cells. */
    method MoveToNewPool(newSize: nat) returns (t: nat)
      requires Valid() && |NonNull(pool[head..tail])| <= newSize
      modifies this`pool
      ensures fresh(pool) && t == |NonNull(old(pool[head..tail]))| <= pool.Length
      ensures pool[..] == Padded(NonNull(old(pool[head..tail])), AllocatedSize(newSize))
    {
      var source := pool;
      ghost var live := NonNull(pool[head..tail]);
      AllocateTaskPool(newSize);
      AllocatedEnough(newSize);
      t := CopyAcross(source, pool, head, tail);
      assert pool[..] == Padded(live, AllocatedSize(newSize));
    }

    /** Moves the tasks to the front of the pool and poisons what they leave behind. */
    method Compact() returns (t: nat)
      requires Valid()
      modifies pool
      ensures t == |NonNull(old(pool[head..tail]))| <= tail
      ensures pool[..] == Padded(NonNull(old(pool[head..tail])), tail) + old(pool[tail..])
    {
      ghost var was, live := pool[..], NonNull(pool[head..tail]);
      t := CopyWithin(pool, head, tail, was);
      FillWithCanary(pool, t, tail);
      assert pool[..] == Padded(live, tail) + was[tail..];
      assert was[tail..] == old(pool[tail..]);
    }
  }

  /** Counts the pointers of a[lo..hi] that are not null. */
  method CountTasks(a: array<Cell>, lo: nat, hi: nat) returns (c: nat)
    requires lo <= hi <= a.Length
    ensures c == |NonNull(a[lo..hi])| <= hi - lo
  {
    c := 0;
    for i := lo to hi
      invariant c == |NonNull(a[lo..i])| <= i - lo
    {
      NonNullStep(a[..], lo, i, hi);
      if !a[i].Hole? { c := c + 1; }
    }
  }

  /** The copying loop when the pool moves to another array. */
  method CopyAcross(source: array<Cell>, target: array<Cell>, lo: nat, hi: nat) returns (t: nat)
    requires lo <= hi <= source.Length && target != source && |NonNull(source[lo..hi])| <= target.Length
    modifies target
    ensures t == |NonNull(source[lo..hi])| <= hi - lo && t <= target.Length
    ensures target[..t] == NonNull(source[lo..hi])
    ensures forall j :: t <= j < target.Length ==> target[j] == old(target[j])
  {
    t := 0;
    assert source[lo..lo] == [];
    for i := lo to hi
      invariant Copied(source[..], lo, i, hi, target[..], t)
      invariant forall j :: t <= j < target.Length ==> target[j] == old(target[j])
    {
      CopiedStep(source[..], lo, i, hi, target[..], t);
      if !source[i].Hole? {
        ghost var before := target[..];
        target[t] := source[i];
        assert target[..] == before[t := source[i]];
        t := t + 1;
      }
    }
  }

  /**
   The same loop when the pool is compacted in place: the write index never passes the read index, so no pointer is
   overwritten before it is read.
   */
  method CopyWithin(a: array<Cell>, lo: nat, hi: nat, ghost was: seq<Cell>) returns (t: nat)
    requires lo <= hi <= a.Length && was == a[..]
    modifies a
    ensures t == |NonNull(was[lo..hi])| <= hi - lo && a[..t] == NonNull(was[lo..hi])
    ensures SameFrom(was, a[..], hi)
  {
    StartWithin(was, lo, hi);
    t := 0;
    for i := lo to hi
      invariant Compacted(was, lo, i, hi, a[..], t)
    {
      CompactedStep(was, lo, i, hi, a[..], t);
      var c := a[i];
      if !c.Hole? {
        StoreTask(a, t, c);
        t := t + 1;
      }
    }
  }

  method StoreTask(a: array<Cell>, t: nat, c: Cell)
    requires t < a.Length
    modifies a
    ensures a[..] == old(a[..])[t := c]
  {
    a[t] := c;
  }

  /** The tasks of was[lo..i] are at the front of now, and the rest is where it was. */
  ghost predicate Compacted(was: seq<Cell>, lo: nat, i: nat, hi: nat, now: seq<Cell>, t: nat) {
    Copied(was, lo, i, hi, now, t) && SameFrom(was, now, i)
  }

  lemma StartWithin(was: seq<Cell>, lo: nat, hi: nat)
    requires lo <= hi <= |was|
    ensures Compacted(was, lo, lo, hi, was, 0)
  {
    NonNullKeeps(was[lo..hi]);
    assert was[lo..lo] == [];
  }

  lemma CompactedStep(was: seq<Cell>, lo: nat, i: nat, hi: nat, now: seq<Cell>, t: nat)
    requires Compacted(was, lo, i, hi, now, t) && i < hi
    ensures i < |now| && now[i] == was[i]
    ensures if now[i].Hole? then Compacted(was, lo, i + 1, hi, now, t)
            else t < |now| && Compacted(was, lo, i + 1, hi, now[t := now[i]], t + 1)
  {
    CopiedStep(was, lo, i, hi, now, t);
  }

  predicate SameFrom(was: seq<Cell>, now: seq<Cell>, i: nat) {
    |was| == |now| && forall j :: i <= j < |was| ==> now[j] == was[j]
  }

  /** The cells of was[lo..i] are copied to target[..t], and the rest of was[..hi] fits behind them. */
  ghost predicate Copied(was: seq<Cell>, lo: nat, i: nat, hi: nat, target: seq<Cell>, t: nat) {
    && lo <= i <= hi <= |was| && t <= |target|
    && target[..t] == NonNull(was[lo..i]) && t <= i - lo
    && t + |NonNull(was[i..hi])| <= |target|
  }

  lemma CopiedStep(was: seq<Cell>, lo: nat, i: nat, hi: nat, target: seq<Cell>, t: nat)
    requires Copied(was, lo, i, hi, target, t) && i < hi
    ensures if was[i].Hole? then Copied(was, lo, i + 1, hi, target, t)
            else t < |target| && Copied(was, lo, i + 1, hi, target[t := was[i]], t + 1)
  {
    NonNullStep(was, lo, i, hi);
    if !was[i].Hole? {
      assert target[t := was[i]][..t + 1] == target[..t] + [was[i]];
    }
  }

  /** fill_with_canary_pattern */
  method FillWithCanary(a: array<Cell>, lo: nat, hi: nat)
    requires lo <= hi <= a.Length
    modifies a
    ensures forall j :: 0 <= j < a.Length ==> a[j] == if lo <= j < hi then Poison else old(a[j])
  {
    for i := lo to hi
      invariant forall j :: 0 <= j < a.Length ==> a[j] == if lo <= j < i then Poison else old(a[j])
    {
      a[i] := Poison;
    }
  }

  /** Reading one more cell. */
  lemma NonNullStep(s: seq<Cell>, lo: nat, i: nat, hi: nat)
    requires lo <= i < hi <= |s|
    ensures NonNull(s[lo..i + 1]) == NonNull(s[lo..i]) + NonNull([s[i]])
    ensures NonNull(s[i..hi]) == NonNull([s[i]]) + NonNull(s[i + 1..hi])
  {
    assert s[lo..i + 1] == s[lo..i] + [s[i]];
    NonNullConcat(s[lo..i], [s[i]]);
    assert s[i..hi] == [s[i]] + s[i + 1..hi];
    NonNullConcat([s[i]], s[i + 1..hi]);
  }
}
