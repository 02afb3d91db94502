/**
 Task cells and the relocation of a full task pool (prepare_task_pool in src/tbb/arena_slot.h).
 */
module Relocation {
  const NO_ISOLATION: nat := 0
  const MIN_POOL_SIZE: nat := 64
  const MAX_NFS_SIZE: nat := 128
  const POINTER_SIZE: nat := 8

  /** A task object; two tasks are the same object exactly when they are equal values. */
  datatype Task = Task(id: nat, isolation: nat, proxy: bool)

  /** A pointer in the pool: poisoned, null (a hole left by a skipped position), or a task. */
  datatype Cell = Poison | Hole | Full(task: Task)

  datatype Pool = Pool(cells: seq<Cell>, tail: int)

  /** The non-null pointers of s, in order. */
  function NonNull(s: seq<Cell>): seq<Cell> {
    if s == [] then []
    else if s[0].Hole? then NonNull(s[1..])
    else [s[0]] + NonNull(s[1..])
  }

  function Fresh(n: nat): seq<Cell> { seq(n, _ => Poison) }

  /** allocate_task_pool rounds the byte size up to a multiple of max_nfs_size. */
  function AllocatedSize(n: nat): nat {
    ((n * POINTER_SIZE + MAX_NFS_SIZE - 1) / MAX_NFS_SIZE) * MAX_NFS_SIZE / POINTER_SIZE
  }

  function FirstSize(n: nat): nat { if n < MIN_POOL_SIZE then MIN_POOL_SIZE else n }

  function Slice(s: seq<Cell>, lo: int, hi: int): seq<Cell> {
    if 0 <= lo <= hi <= |s| then s[lo..hi] else []
  }

  /** The pool after compaction or reallocation made room for n more tasks. */
  function Relocated(cells: seq<Cell>, head: int, tail: int, n: nat): Pool {
    var live := NonNull(Slice(cells, head, tail));
    var wanted := n + |live|;
    if wanted > |cells| - MIN_POOL_SIZE / 4 then
      var size := AllocatedSize(if wanted < 2 * |cells| then 2 * |cells| else wanted);
      Pool(Padded(live, size), |live|)
    else
      Pool(Padded(live, tail) + Slice(cells, tail, |cells|), |live|)
  }

  /** live followed by poisoned cells up to length n. */
  function Padded(live: seq<Cell>, n: int): seq<Cell> {
    if |live| <= n then live + Fresh(n - |live|) else live
  }

  // ---------------------------------------------------------------- properties

  lemma {:induction false} NonNullConcat(a: seq<Cell>, b: seq<Cell>)
    ensures NonNull(a + b) == NonNull(a) + NonNull(b)
  {
    if a == [] {
      assert a + b == b;
    } else {
      assert (a + b)[1..] == a[1..] + b;
      NonNullConcat(a[1..], b);
    }
  }

  /** The kept pointers are the same tasks in the same order, each as often as before. */
  lemma {:induction false} NonNullKeeps(s: seq<Cell>)
    ensures |NonNull(s)| <= |s|
    ensures forall c :: c in NonNull(s) <==> c in s && c != Hole
    ensures (forall i, j :: 0 <= i < j < |s| && s[i] != Hole ==> s[i] != s[j]) ==>
            (forall i, j :: 0 <= i < j < |NonNull(s)| ==> NonNull(s)[i] != NonNull(s)[j])
  {
    if s != [] {
      NonNullKeeps(s[1..]);
      assert s == [s[0]] + s[1..];
      if forall i, j :: 0 <= i < j < |s| && s[i] != Hole ==> s[i] != s[j] {
        assert forall i, j :: 0 <= i < j < |s[1..]| ==> s[1..][i] == s[i + 1] && s[1..][j] == s[j + 1];
        assert s[0] != Hole ==> s[0] !in s[1..];
      }
    }
  }

  /** Allocation never rounds down. */
  lemma AllocatedEnough(n: nat)
    ensures AllocatedSize(n) >= n
  {
    var b := n * POINTER_SIZE + MAX_NFS_SIZE - 1;
    assert b / MAX_NFS_SIZE * MAX_NFS_SIZE + b % MAX_NFS_SIZE == b;
  }

  /** Allocation takes the fewest whole blocks of 16 pointers that hold n. */
  lemma AllocatedTight(n: nat)
    ensures n <= AllocatedSize(n) < n + 16 && AllocatedSize(n) % 16 == 0
  {
    var blocks := (n * POINTER_SIZE + MAX_NFS_SIZE - 1) / MAX_NFS_SIZE;
    assert AllocatedSize(n) == blocks * 16;
    AllocatedEnough(n);
  }

  /** The first pool holds what was asked for, and at least 64 tasks. */
  lemma FirstPoolSize(n: nat)
    ensures AllocatedSize(FirstSize(n)) >= n && AllocatedSize(FirstSize(n)) >= 64
    ensures AllocatedSize(FirstSize(n)) == 64 || AllocatedSize(FirstSize(n)) < n + 16
  {
    AllocatedTight(FirstSize(n));
  }

  lemma PaddedLayout(live: seq<Cell>, n: nat)
    requires |live| <= n
    ensures |Padded(live, n)| == n && Padded(live, n)[..|live|] == live
    ensures forall i :: |live| <= i < n ==> Padded(live, n)[i] == Poison
  {
  }

  /** The pool after live and n more tasks were given room. */
  ghost predicate Laid(r: Pool, live: seq<Cell>, n: nat) {
    && r.tail == |live| && r.tail + n <= |r.cells| && r.cells[..r.tail] == live
    && forall i :: r.tail <= i < |r.cells| ==> r.cells[i] == Poison
  }

  lemma PaddedIsLaid(live: seq<Cell>, size: nat, n: nat)
    requires |live| + n <= size
    ensures Laid(Pool(Padded(live, size), |live|), live, n)
  {
    PaddedLayout(live, size);
  }

  lemma CompactedIsLaid(cells: seq<Cell>, live: seq<Cell>, tail: nat, n: nat)
    requires |live| <= tail <= |cells| && |live| + n <= |cells|
    requires forall i :: tail <= i < |cells| ==> cells[i] == Poison
    ensures Laid(Pool(Padded(live, tail) + cells[tail..], |live|), live, n)
  {
    PaddedLayout(live, tail);
    assert (Padded(live, tail) + cells[tail..])[..|live|] == Padded(live, tail)[..|live|];
  }

  /** A relocated pool starts with the surviving tasks in order, has room for n more, and is poisoned after them. */
  lemma RelocatedLayout(cells: seq<Cell>, head: int, tail: int, n: nat)
    requires 0 <= head <= tail <= |cells| && cells != []
    requires forall i :: tail <= i < |cells| ==> cells[i] == Poison
    ensures Laid(Relocated(cells, head, tail, n), NonNull(cells[head..tail]), n)
  {
    var live := NonNull(cells[head..tail]);
    NonNullKeeps(cells[head..tail]);
    var wanted := n + |live|;
    if wanted > |cells| - MIN_POOL_SIZE / 4 {
      var doubled: nat := if wanted < 2 * |cells| then 2 * |cells| else wanted;
      AllocatedEnough(doubled);
      PaddedIsLaid(live, AllocatedSize(doubled), n);
    } else {
      CompactedIsLaid(cells, live, tail, n);
    }
  }

  /**
   A pool is compacted in place exactly if at least 16 cells stay free behind the tasks there are to be, and otherwise
   it at least doubles; so relocations are rare.
   */
  lemma RelocatedSize(cells: seq<Cell>, head: int, tail: int, n: nat)
    requires 0 <= head <= tail <= |cells| && cells != []
    ensures var room, wanted := |Relocated(cells, head, tail, n).cells|, |NonNull(cells[head..tail])| + n;
      && (wanted + 16 <= |cells| ==> room == |cells|)
      && (wanted + 16 > |cells| ==> 2 * |cells| <= room && wanted <= room)
      && (wanted + 16 > |cells| ==> room < 2 * |cells| + 16 || room < wanted + 16)
  {
    var live := NonNull(cells[head..tail]);
    NonNullKeeps(cells[head..tail]);
    var wanted := n + |live|;
    if wanted + 16 > |cells| {
      var size: nat := if wanted < 2 * |cells| then 2 * |cells| else wanted;
      AllocatedTight(size);
      PaddedLayout(live, AllocatedSize(size));
    } else {
      PaddedLayout(live, tail);
    }
  }
}
