/**
 Assignment of threads to processor groups on Windows (initialize_hardware_concurrency_info and
 FindProcessorGroupIndex in src/tbb/misc_ex.cpp). Threads up to the number of processors fill the groups one after
 another, from the group of the current thread on; the ones beyond are dealt out in proportion to the group sizes.
 */
module ProcessorGroups {
  import opened Arithmetic

  /** The sum of the first i entries. */
  function Prefix(q: seq<nat>, i: nat): nat
    requires i <= |q|
  {
    if i == 0 then 0 else Prefix(q, i - 1) + q[i - 1]
  }

  /** How many of the smallest group fit into each one. */
  function Ratios(procs: seq<nat>, least: nat): seq<nat>
    requires least > 0
  {
    seq(|procs|, i requires 0 <= i < |procs| => procs[i] / least)
  }

  predicate IsLeast(procs: seq<nat>, least: nat) {
    least in procs && forall i :: 0 <= i < |procs| ==> least <= procs[i]
  }

  predicate LeastSoFar(procs: seq<nat>, n: nat, least: nat) {
    n <= |procs| && least > 0 && least in procs && forall i :: 0 <= i < n ==> least <= procs[i]
  }

  /** numProcs, numProcsRunningTotal and calculate_numa of every group, HoleIndex and numaSum. */
  datatype Tables = Tables(procs: seq<nat>, running: seq<nat>, numa: seq<int>, numaSum: int, hole: nat)

  ghost predicate TablesOk(t: Tables, least: nat) {
    && |t.procs| == |t.running| == |t.numa| > 0 && t.hole < |t.procs|
    && least > 0 && IsLeast(t.procs, least)
    && (forall i :: 0 <= i < |t.procs| ==> t.running[i] == Prefix(t.procs, i + 1))
    && (forall i :: 0 <= i < |t.procs| ==> t.numa[i] == Prefix(Ratios(t.procs, least), i + 1) - 1)
    && t.numaSum == t.numa[|t.numa| - 1]
  }

  /** Counts the processors and finds the smallest group. */
  method CountProcessors(procs: seq<nat>) returns (running: array<nat>, numa: array<int>, least: nat)
    requires procs != [] && forall i :: 0 <= i < |procs| ==> procs[i] > 0
    ensures fresh(running) && fresh(numa) && running.Length == numa.Length == |procs|
    ensures least > 0 && IsLeast(procs, least)
    ensures forall k :: 0 <= k < |procs| ==> numa[k] == procs[k] && running[k] == Prefix(procs, k + 1)
  {
    var n := |procs|;
    running, numa := new nat[n], new int[n];
    var nprocs := 0;
    least := procs[0];
    for i := 0 to n
      invariant LeastSoFar(procs, i, least)
      invariant nprocs == Prefix(procs, i)
      invariant forall k :: 0 <= k < i ==> numa[k] == procs[k]
      invariant forall k :: 0 <= k < i ==> running[k] == Prefix(procs, k + 1)
    {
      if procs[i] < least {
        least := procs[i];
      }
      numa[i] := procs[i];
      nprocs := nprocs + procs[i];
      running[i] := nprocs;
    }
  }

  /** The first i entries of numa are running totals of the ratios less one, the others are still sizes. */
  ghost predicate Accumulated(numa: seq<int>, procs: seq<nat>, ratios: seq<nat>, i: nat) {
    && i <= |numa| == |procs| == |ratios|
    && (forall k :: 0 <= k < i ==> numa[k] == Prefix(ratios, k + 1) - 1)
    && (forall k :: i <= k < |procs| ==> numa[k] == procs[k])
  }

  lemma AccumulatedStep(numa: seq<int>, procs: seq<nat>, ratios: seq<nat>, i: nat)
    requires Accumulated(numa, procs, ratios, i) && i < |procs|
    ensures numa[i] == procs[i]
    ensures Accumulated(numa[i := (if i == 0 then 0 - 1 else numa[i - 1]) + ratios[i] as int], procs, ratios, i + 1)
  {
    assert Prefix(ratios, i + 1) == Prefix(ratios, i) + ratios[i];
  }

  /** Turns the sizes in numa into running totals of the ratios, less one. */
  method AccumulateRatios(procs: seq<nat>, numa: array<int>, least: nat)
    requires numa.Length == |procs| > 0 && least > 0 && forall k :: 0 <= k < |procs| ==> numa[k] == procs[k]
    modifies numa
    ensures forall k :: 0 <= k < |procs| ==> numa[k] == Prefix(Ratios(procs, least), k + 1) - 1
  {
    ghost var ratios := Ratios(procs, least);
    AccumulatedStep(numa[..], procs, ratios, 0);
    numa[0] := numa[0] / least - 1;
    assert numa[..] == old(numa[..])[0 := ratios[0] as int - 1];
    for i := 1 to |procs|
      invariant Accumulated(numa[..], procs, ratios, i)
    {
      ghost var before := numa[..];
      AccumulatedStep(before, procs, ratios, i);
      numa[i] := numa[i - 1] + numa[i] / least;
      assert numa[..] == before[i := before[i - 1] + ratios[i] as int];
    }
  }

  method ComputeTables(procs: seq<nat>, hole: nat) returns (t: Tables, least: nat)
    requires hole < |procs| && forall i :: 0 <= i < |procs| ==> procs[i] > 0
    ensures t.procs == procs && t.hole == hole && TablesOk(t, least)
  {
    var running, numa;
    running, numa, least := CountProcessors(procs);
    AccumulateRatios(procs, numa, least);
    t := Tables(procs, running[..], numa[..], numa[|procs| - 1], hole);
  }

  // ---------------------------------------------------------------- which group an index belongs to

  /** Group k, counting around the end of the table once. */
  function Wrap(k: nat, n: nat): nat
    requires k < 2 * n
  {
    if k < n then k else k - n
  }

  lemma WrapIs(g: nat, n: nat)
    requires g < n
    ensures (g + 1) % n == Wrap(g + 1, n)
  {
    if g + 1 < n {
      Quotient(g + 1, n, 0, g + 1);
    } else {
      Quotient(g + 1, n, 1, 0);
    }
  }

  /** The number of processors in the first j groups from the hole on, around the end. */
  function Around(procs: seq<nat>, hole: nat, j: nat): nat
    requires hole < |procs| && j <= |procs|
  {
    if j == 0 then 0 else Around(procs, hole, j - 1) + procs[Wrap(hole + j - 1, |procs|)]
  }

  /** The position of group g when counting from the hole. */
  function Turn(n: nat, hole: nat, g: nat): nat
    requires hole < n && g < n
  {
    if hole <= g then g - hole else g + n - hole
  }

  /** Group g is the one for an index below the number of processors. */
  predicate InGroup(procs: seq<nat>, hole: nat, idx: nat, g: nat)
    requires hole < |procs| && g < |procs|
  {
    var j := Turn(|procs|, hole, g);
    Around(procs, hole, j) <= idx < Around(procs, hole, j + 1)
  }

  /** Group g is the one for the r-th index of a cycle beyond the number of processors. */
  predicate InCycle(procs: seq<nat>, least: nat, r: nat, g: nat)
    requires least > 0 && g < |procs|
  {
    Prefix(Ratios(procs, least), g) <= r < Prefix(Ratios(procs, least), g + 1)
  }

  function Total(procs: seq<nat>): nat { Prefix(procs, |procs|) }

  function Cycle(procs: seq<nat>, least: nat): nat
    requires least > 0
  {
    Prefix(Ratios(procs, least), |procs|)
  }

  ghost predicate Belongs(procs: seq<nat>, hole: nat, least: nat, idx: nat, g: nat)
    requires hole < |procs| && least > 0 && g < |procs| && Cycle(procs, least) > 0
  {
    if idx < Total(procs) then InGroup(procs, hole, idx, g)
    else InCycle(procs, least, (idx - Total(procs)) % Cycle(procs, least), g)
  }

  lemma {:induction false} PrefixGrows(q: seq<nat>, i: nat, j: nat)
    requires i <= j <= |q|
    ensures Prefix(q, i) <= Prefix(q, j)
    decreases j - i
  {
    if i < j {
      PrefixGrows(q, i, j - 1);
    }
  }

  lemma {:induction false} AroundGrows(procs: seq<nat>, hole: nat, i: nat, j: nat)
    requires hole < |procs| && i <= j <= |procs|
    ensures Around(procs, hole, i) <= Around(procs, hole, j)
    decreases j - i
  {
    if i < j {
      AroundGrows(procs, hole, i, j - 1);
    }
  }

  /** Up to the end of the table, then from its start. */
  lemma {:induction false} AroundIs(procs: seq<nat>, hole: nat, j: nat)
    requires hole < |procs| && j <= |procs|
    ensures Around(procs, hole, j) == if hole + j <= |procs| then Prefix(procs, hole + j) - Prefix(procs, hole)
                                      else Total(procs) - Prefix(procs, hole) + Prefix(procs, hole + j - |procs|)
    decreases j
  {
    if j > 0 {
      AroundIs(procs, hole, j - 1);
    }
  }

  /** A full turn takes all processors, wherever it starts. */
  lemma FullTurn(procs: seq<nat>, hole: nat)
    requires hole < |procs|
    ensures Around(procs, hole, |procs|) == Total(procs)
  {
    AroundIs(procs, hole, |procs|);
  }

  lemma CyclePositive(procs: seq<nat>, least: nat)
    requires least > 0 && IsLeast(procs, least)
    ensures Cycle(procs, least) > 0
  {
    var q := Ratios(procs, least);
    PrefixGrows(q, 1, |q|);
    assert Prefix(q, 1) == Prefix(q, 0) + q[0];
    QuotientPositive(procs[0], least);
  }

  method FindProcessorGroupIndex(t: Tables, idx: nat, ghost least: nat) returns (g: nat)
    requires TablesOk(t, least)
    ensures g < |t.procs| && Cycle(t.procs, least) > 0 && Belongs(t.procs, t.hole, least, idx, g)
  {
    var n := |t.procs|;
    CyclePositive(t.procs, least);
    FullTurn(t.procs, t.hole);
    g := t.hole;
    assert Around(t.procs, t.hole, 1) == Around(t.procs, t.hole, 0) + t.procs[t.hole];
    if t.procs[g] <= idx < t.running[n - 1] {
      g := FillGroups(t.procs, t.hole, idx);
    } else if idx >= t.running[n - 1] {
      g := DealOut(t, least, (idx - t.running[n - 1]) % (t.numaSum + 1));
    }
  }

  /** The loop for an index below the number of processors. */
  method FillGroups(procs: seq<nat>, hole: nat, idx: nat) returns (g: nat)
    requires hole < |procs| && procs[hole] <= idx < Around(procs, hole, |procs|)
    ensures g < |procs| && InGroup(procs, hole, idx, g)
  {
    var n := |procs|;
    var p := idx - procs[hole];
    g := hole;
    ghost var j := 0;
    assert Around(procs, hole, 1) == Around(procs, hole, 0) + procs[hole];
    while p >= 0
      invariant 0 <= j < n && g == Wrap(hole + j, n)
      invariant p == idx - Around(procs, hole, j + 1) && idx >= Around(procs, hole, j)
      decreases n - j
    {
      WrapIs(g, n);
      g := (g + 1) % n;
      j := j + 1;
      p := p - procs[g];
    }
    assert j == Turn(n, hole, g);
  }

  /** The loop for an index beyond the number of processors. */
  method DealOut(t: Tables, ghost least: nat, r: nat) returns (g: nat)
    requires TablesOk(t, least) && r < Cycle(t.procs, least)
    ensures g < |t.procs| && InCycle(t.procs, least, r, g)
  {
    g := 0;
    while r - t.numa[g] > 0
      invariant g < |t.procs| && Prefix(Ratios(t.procs, least), g) <= r
      decreases |t.procs| - g
    {
      WrapIs(g, |t.procs|);
      g := (g + 1) % |t.procs|;
    }
  }

  // ---------------------------------------------------------------- how the indices are shared out

  /** No index belongs to two groups, so the group found is the one group it belongs to. */
  lemma OneGroup(procs: seq<nat>, hole: nat, least: nat, idx: nat, g: nat, h: nat)
    requires hole < |procs| && least > 0 && g < |procs| && h < |procs| && Cycle(procs, least) > 0
    requires Belongs(procs, hole, least, idx, g) && Belongs(procs, hole, least, idx, h)
    ensures g == h
  {
    var q := Ratios(procs, least);
    var i, j := Turn(|procs|, hole, g), Turn(|procs|, hole, h);
    if i < j {
      AroundGrows(procs, hole, i + 1, j);
    } else if j < i {
      AroundGrows(procs, hole, j + 1, i);
    }
    if g < h {
      PrefixGrows(q, g + 1, h);
    } else if h < g {
      PrefixGrows(q, h + 1, g);
    }
  }

  function Interval(lo: nat, hi: nat): set<nat>
    requires lo <= hi
    decreases hi
  {
    if lo == hi then {} else Interval(lo, hi - 1) + {hi - 1}
  }

  lemma {:induction false} IntervalSize(lo: nat, hi: nat)
    requires lo <= hi
    ensures |Interval(lo, hi)| == hi - lo && forall x :: x in Interval(lo, hi) <==> lo <= x < hi
    decreases hi
  {
    if lo < hi {
      IntervalSize(lo, hi - 1);
    }
  }

  /** The indices from lo to below hi that belong to group g. */
  ghost function Share(procs: seq<nat>, hole: nat, least: nat, lo: nat, hi: nat, g: nat): set<nat>
    requires hole < |procs| && least > 0 && g < |procs| && Cycle(procs, least) > 0
  {
    set idx: nat | lo <= idx < hi && Belongs(procs, hole, least, idx, g)
  }

  lemma FillShare(procs: seq<nat>, hole: nat, least: nat, g: nat, lo: nat, hi: nat)
    requires hole < |procs| && least > 0 && g < |procs| && Cycle(procs, least) > 0 && lo <= hi <= Total(procs)
    requires lo == Around(procs, hole, Turn(|procs|, hole, g)) && hi == Around(procs, hole, Turn(|procs|, hole, g) + 1)
    ensures Share(procs, hole, least, 0, Total(procs), g) == Interval(lo, hi)
  {
    IntervalSize(lo, hi);
    IntervalSize(0, Total(procs));
    var share := Share(procs, hole, least, 0, Total(procs), g);
    forall idx | idx in Interval(0, Total(procs))
      ensures idx in share <==> idx in Interval(lo, hi)
    {
      assert Belongs(procs, hole, least, idx, g) == InGroup(procs, hole, idx, g);
    }
    assert forall idx :: idx in share ==> idx in Interval(0, Total(procs));
    assert forall idx :: idx in Interval(lo, hi) ==> idx in Interval(0, Total(procs));
  }

  /** Of the indices below the number of processors each group gets as many as it has processors, whatever the hole. */
  lemma FillsEachGroup(procs: seq<nat>, hole: nat, least: nat, g: nat)
    requires hole < |procs| && least > 0 && IsLeast(procs, least) && g < |procs|
    ensures Cycle(procs, least) > 0 && |Share(procs, hole, least, 0, Total(procs), g)| == procs[g]
  {
    var j := Turn(|procs|, hole, g);
    var lo, hi := Around(procs, hole, j), Around(procs, hole, j + 1);
    CyclePositive(procs, least);
    FullTurn(procs, hole);
    AroundGrows(procs, hole, j + 1, |procs|);
    FillShare(procs, hole, least, g, lo, hi);
    IntervalSize(lo, hi);
  }

  /** Within the k-th cycle the indices of group g are consecutive. */
  lemma BelongsInCycle(procs: seq<nat>, hole: nat, least: nat, g: nat, k: nat, idx: nat)
    requires hole < |procs| && least > 0 && g < |procs| && Cycle(procs, least) > 0
    requires Total(procs) + Cycle(procs, least) * k <= idx
    requires idx < Total(procs) + Cycle(procs, least) * k + Cycle(procs, least)
    ensures var base, q := Total(procs) + Cycle(procs, least) * k, Ratios(procs, least);
      Belongs(procs, hole, least, idx, g) <==> base + Prefix(q, g) <= idx < base + Prefix(q, g + 1)
  {
    var c := Cycle(procs, least);
    Quotient(idx - Total(procs), c, k, idx - Total(procs) - c * k);
  }

  /** The indices of group g in the cycle that starts at base. */
  lemma CycleShare(procs: seq<nat>, hole: nat, least: nat, g: nat, k: nat, base: nat, lo: nat, hi: nat)
    requires hole < |procs| && least > 0 && g < |procs| && Cycle(procs, least) > 0
    requires base == Total(procs) + Cycle(procs, least) * k && base <= lo <= hi <= base + Cycle(procs, least)
    requires lo == base + Prefix(Ratios(procs, least), g) && hi == base + Prefix(Ratios(procs, least), g + 1)
    ensures Share(procs, hole, least, base, base + Cycle(procs, least), g) == Interval(lo, hi)
  {
    var c := Cycle(procs, least);
    var share := Share(procs, hole, least, base, base + c, g);
    IntervalSize(base, base + c);
    IntervalSize(lo, hi);
    forall idx | idx in Interval(base, base + c)
      ensures idx in share <==> idx in Interval(lo, hi)
    {
      BelongsInCycle(procs, hole, least, g, k, idx);
    }
    WithinEqual(share, Interval(lo, hi), Interval(base, base + c));
  }

  lemma WithinEqual(a: set<nat>, b: set<nat>, all: set<nat>)
    requires a <= all && b <= all && forall x :: x in all ==> (x in a <==> x in b)
    ensures a == b
  {
  }

  lemma RatioOf(procs: seq<nat>, least: nat, g: nat)
    requires least > 0 && g < |procs|
    ensures Prefix(Ratios(procs, least), g + 1) == Prefix(Ratios(procs, least), g) + procs[g] / least
    ensures Prefix(Ratios(procs, least), g + 1) <= Cycle(procs, least)
  {
    var q := Ratios(procs, least);
    assert Prefix(q, g + 1) == Prefix(q, g) + q[g];
    PrefixGrows(q, g + 1, |q|);
  }

  /** Of each further cycle of indices a group gets as many as the smallest group fits into it. */
  lemma DealsInProportion(procs: seq<nat>, hole: nat, least: nat, g: nat, k: nat)
    requires hole < |procs| && least > 0 && IsLeast(procs, least) && g < |procs|
    ensures var c := Cycle(procs, least);
      c > 0 && |Share(procs, hole, least, Total(procs) + c * k, Total(procs) + c * k + c, g)| == procs[g] / least
  {
    CyclePositive(procs, least);
    var base := Total(procs) + Cycle(procs, least) * k;
    var lo, hi := base + Prefix(Ratios(procs, least), g), base + Prefix(Ratios(procs, least), g + 1);
    RatioOf(procs, least, g);
    CycleShare(procs, hole, least, g, k, base, lo, hi);
    IntervalSize(lo, hi);
  }
}
