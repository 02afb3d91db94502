/** The market's demand counters and its distribution of workers (src/tbb/market.cpp, src/tbb/pm_client.h). */
module Market {
  import opened ArenaDemand
  import opened Arithmetic
  import opened Sums

  const NUM_PRIORITY_LEVELS: nat := 3

  /** A registered arena as its permit-manager client sees it. */
  datatype Client = Client(
    request: Request,
    minWorkers: nat,
    maxWorkers: nat,
    allotment: int,
    top: bool)

  function Min(a: int, b: int): int { if a < b then a else b }

  function MaxOf(c: Client): int { c.maxWorkers }

  function AllottedTo(c: Client): int { c.allotment }

  function SumMax(cs: seq<Client>): nat {
    SumNonNegative(cs, MaxOf);
    Sum(cs, MaxOf)
  }

  function SumAllotted(cs: seq<Client>): int { Sum(cs, AllottedTo) }

  // ---------------------------------------------------------------- what a distribution promises

  /** The allotment of c is within one of its exact share c.maxWorkers * workers / demand. */
  predicate NearShare(c: Client, workers: int, demand: int) {
    -demand < c.allotment * demand - c.maxWorkers * workers < demand
  }

  /** cs' is cs with other allotments. */
  predicate SameClients(cs: seq<Client>, cs': seq<Client>) {
    && |cs'| == |cs|
    && forall i :: 0 <= i < |cs| ==> cs'[i] == cs[i].(allotment := cs'[i].allotment, top := cs'[i].top)
  }

  /** A level whose clients asked for demand workers in all got workers of them, shared fairly. */
  ghost predicate FairLevel(cs: seq<Client>, workers: int, demand: int) {
    SumAllotted(cs) == workers && Shares(cs, workers, demand) && RoundedFromLast(cs, workers, demand)
  }

  /** The clients from any one to the last added together get their exact share, rounded down. */
  ghost predicate RoundedFromLast(cs: seq<Client>, workers: int, demand: int) {
    forall i :: 0 <= i < |cs| ==> RoundedDown(cs[i..], workers, demand)
  }

  predicate RoundedDown(cs: seq<Client>, workers: int, demand: int) {
    demand > 0 ==> 0 <= SumMax(cs) * workers - SumAllotted(cs) * demand < demand
  }

  /** Every client's allotment is within its demand and within one of its exact share. */
  predicate Shares(cs: seq<Client>, workers: int, demand: int) {
    forall i :: 0 <= i < |cs| ==>
      0 <= cs[i].allotment <= cs[i].maxWorkers && (cs[i].maxWorkers > 0 ==> NearShare(cs[i], workers, demand))
  }

  /** Clients that asked for workers know whether theirs is the top priority level. */
  predicate TopMarked(cs: seq<Client>, out: seq<Client>, isTop: bool) {
    |out| == |cs| && forall i :: 0 <= i < |cs| ==> out[i].top == if cs[i].maxWorkers > 0 then isTop else cs[i].top
  }

  /** A client that mandatory concurrency serves when the soft limit is zero. */
  predicate Eligible(c: Client) { c.minWorkers > 0 && c.maxWorkers > 0 }

  predicate AnyEligible(cs: seq<Client>) { exists i :: 0 <= i < |cs| && Eligible(cs[i]) }

  /** No client gets more than one worker, and only the last added eligible one gets it. */
  predicate OnlyEligible(cs: seq<Client>) {
    && (forall i :: 0 <= i < |cs| ==> 0 <= cs[i].allotment <= 1 && (cs[i].allotment == 1 ==> Eligible(cs[i])))
    && (forall i, j :: 0 <= i < j < |cs| && cs[i].allotment == 1 ==> !Eligible(cs[j]))
  }

  // ---------------------------------------------------------------- arithmetic of the carried remainder

  /** One client's share: what the remainder carried in and out leaves of an exact share. */
  lemma ShareBounds(max: nat, workers: nat, demand: nat, carry: nat)
    requires carry < demand && workers <= demand
    ensures var tmp := max * workers + carry;
            && 0 <= tmp / demand <= max && 0 <= tmp % demand < demand
            && tmp / demand * demand + tmp % demand == tmp
  {
    var tmp: nat := max * workers + carry;
    Scaled(max, workers, demand);
    var q := tmp / demand;
    assert demand * (max + 1) == max * demand + demand;
    assert demand * q == q * demand;
    if q > max {
      Scaled(demand, max + 1, q);
    }
  }

  // ---------------------------------------------------------------- distribution

  /** What update_allotment knows while it serves one priority level. */
  datatype Level = Level(index: nat, demand: nat, workers: nat, softLimit: nat, maxWorkers: nat)

  /** The counters that update_allotment carries from client to client. */
  datatype Counters = Counters(handed: int, carry: nat, topLevel: nat)

  /** One pass of the inner loop of update_allotment. */
  function Serve(c: Client, l: Level, k: Counters): (Client, Counters)
    requires l.softLimit > 0 && c.maxWorkers > 0 ==> l.demand > 0
  {
    if c.maxWorkers == 0 then
      (c.(allotment := 0), k)
    else
      var topLevel := if k.topLevel == NUM_PRIORITY_LEVELS then l.index else k.topLevel;
      var tmp := c.maxWorkers * l.workers + k.carry;
      var allotted := if l.softLimit == 0 then (if c.minWorkers > 0 && k.handed < l.maxWorkers then 1 else 0)
                      else tmp / l.demand;
      var carry := if l.softLimit == 0 then k.carry else tmp % l.demand;
      (c.(allotment := allotted, top := l.index == topLevel), Counters(k.handed + allotted, carry, topLevel))
  }

  function TopAfter(topLevel: nat, index: nat, demand: nat): nat {
    if topLevel == NUM_PRIORITY_LEVELS && demand > 0 then index else topLevel
  }

  /** The clients cs of level l have been served, giving out and taking the counters from k to k'. */
  predicate Served(cs: seq<Client>, out: seq<Client>, l: Level, k: Counters, k': Counters) {
    && SameClients(cs, out)
    && k'.topLevel == TopAfter(k.topLevel, l.index, SumMax(cs))
    && TopMarked(cs, out, l.index == k'.topLevel)
    && k'.handed == k.handed + SumAllotted(out)
  }

  /** ... in proportion to their demand. */
  ghost predicate ServedFairly(cs: seq<Client>, out: seq<Client>, l: Level, k': Counters) {
    && Shares(out, l.workers, l.demand) && RoundedFromLast(out, l.workers, l.demand) && SumMax(out) == SumMax(cs)
    && 0 <= SumAllotted(out) <= SumMax(cs)
    && (k'.carry < l.demand || (k'.carry == 0 && l.demand == 0))
    && SumAllotted(out) * l.demand + k'.carry == SumMax(cs) * l.workers
  }

  /** ... with soft limit zero. */
  predicate ServedMandatory(cs: seq<Client>, out: seq<Client>, l: Level, k: Counters, k': Counters) {
    && SameClients(cs, out) && OnlyEligible(out)
    && k'.carry == k.carry
    && k'.handed == if AnyEligible(cs) then l.maxWorkers else k.handed
  }

  lemma ServeNext(c: Client, cs: seq<Client>, out: seq<Client>, l: Level, k: Counters, k': Counters)
    requires Served(cs, out, l, k, k') && l.index < NUM_PRIORITY_LEVELS && c.maxWorkers + SumMax(cs) <= l.demand
    ensures var (c', k'') := Serve(c, l, k'); Served([c] + cs, [c'] + out, l, k, k'')
  {
    var (c', k'') := Serve(c, l, k');
    SumFront(c, cs, MaxOf);
    SumFront(c', out, AllottedTo);
    if SumMax(cs) == 0 {
      NobodyAsks(cs);
    }
    SameFront(c, cs, c', out);
    TopFront(c, cs, c', out, l.index == k'.topLevel, l.index == k''.topLevel);
  }

  lemma SameFront(c: Client, cs: seq<Client>, c': Client, out: seq<Client>)
    requires SameClients(cs, out) && c' == c.(allotment := c'.allotment, top := c'.top)
    ensures SameClients([c] + cs, [c'] + out)
  {
  }

  lemma TopFront(c: Client, cs: seq<Client>, c': Client, out: seq<Client>, before: bool, now: bool)
    requires TopMarked(cs, out, before) && c'.top == (if c.maxWorkers > 0 then now else c.top)
    requires before == now || forall i :: 0 <= i < |cs| ==> cs[i].maxWorkers == 0
    ensures TopMarked([c] + cs, [c'] + out, now)
  {
  }

  lemma NobodyAsks(cs: seq<Client>)
    requires SumMax(cs) == 0
    ensures forall i :: 0 <= i < |cs| ==> cs[i].maxWorkers == 0
  {
    forall i | 0 <= i < |cs|
      ensures cs[i].maxWorkers == 0
    {
      SumAtLeast(cs, i, MaxOf);
    }
  }

  lemma ServeNextFairly(c: Client, cs: seq<Client>, out: seq<Client>, l: Level, k': Counters)
    requires ServedFairly(cs, out, l, k') && l.softLimit > 0
    requires l.workers <= l.demand && c.maxWorkers + SumMax(cs) <= l.demand
    ensures var (c', k'') := Serve(c, l, k'); ServedFairly([c] + cs, [c'] + out, l, k'')
  {
    var (c', k'') := Serve(c, l, k');
    SumFront(c, cs, MaxOf);
    SumFront(c', out, AllottedTo);
    if c.maxWorkers > 0 {
      ShareBounds(c.maxWorkers, l.workers, l.demand, k'.carry);
      Distribute(c'.allotment, SumAllotted(out), l.demand);
      Distribute(c.maxWorkers, SumMax(cs), l.workers);
    }
    SumFront(c', out, MaxOf);
    RoundedFront(c', out, l.workers, l.demand);
    SharesFront(c', out, l.workers, l.demand);
  }

  lemma SharesFront(c: Client, cs: seq<Client>, workers: int, demand: int)
    requires Shares(cs, workers, demand) && 0 <= c.allotment <= c.maxWorkers
    requires c.maxWorkers > 0 ==> NearShare(c, workers, demand)
    ensures Shares([c] + cs, workers, demand)
  {
  }

  lemma RoundedFront(c: Client, cs: seq<Client>, workers: int, demand: int)
    requires RoundedFromLast(cs, workers, demand) && RoundedDown([c] + cs, workers, demand)
    ensures RoundedFromLast([c] + cs, workers, demand)
  {
    var all := [c] + cs;
    forall i | 0 <= i < |all|
      ensures RoundedDown(all[i..], workers, demand)
    {
      assert all[i..] == if i == 0 then all else cs[i - 1..];
    }
  }

  lemma Distribute(x: int, y: int, z: int)
    ensures (x + y) * z == x * z + y * z
  {
  }

  lemma ServeNextMandatory(c: Client, cs: seq<Client>, out: seq<Client>, l: Level, k: Counters, k': Counters)
    requires ServedMandatory(cs, out, l, k, k') && l.softLimit == 0 && 0 <= k.handed <= l.maxWorkers <= 1
    ensures var (c', k'') := Serve(c, l, k'); ServedMandatory([c] + cs, [c'] + out, l, k, k'')
  {
    var (c', k'') := Serve(c, l, k');
    EligibleFront(c, cs);
    EligibleFront(c', out);
    EligibleAlike(cs, out);
    OnlyEligibleFront(c', out);
  }

  lemma EligibleFront(c: Client, cs: seq<Client>)
    ensures AnyEligible([c] + cs) <==> Eligible(c) || AnyEligible(cs)
  {
    var all := [c] + cs;
    assert all[0] == c && forall i :: 0 <= i < |cs| ==> all[i + 1] == cs[i];
  }

  lemma EligibleAlike(cs: seq<Client>, cs': seq<Client>)
    requires SameClients(cs, cs')
    ensures AnyEligible(cs') == AnyEligible(cs)
  {
    assert forall i :: 0 <= i < |cs| ==> Eligible(cs[i]) == Eligible(cs'[i]);
  }

  lemma OnlyEligibleFront(c: Client, cs: seq<Client>)
    requires OnlyEligible(cs) && 0 <= c.allotment <= 1 && (c.allotment == 1 ==> Eligible(c) && !AnyEligible(cs))
    ensures OnlyEligible([c] + cs)
  {
  }

  predicate LevelGiven(clients: seq<Client>, l: Level, k: Counters) {
    && l.demand == SumMax(clients) && l.workers <= l.demand && l.index < NUM_PRIORITY_LEVELS && k.carry == 0
    && (l.softLimit == 0 ==> 0 <= k.handed <= l.maxWorkers <= 1)
  }

  /** The clients from i on have been served. */
  ghost predicate Serving(clients: seq<Client>, i: nat, out: seq<Client>, l: Level, k: Counters, k': Counters) {
    && i <= |clients|
    && Served(clients[i..], out, l, k, k')
    && (l.softLimit > 0 ==> ServedFairly(clients[i..], out, l, k'))
    && (l.softLimit == 0 ==> ServedMandatory(clients[i..], out, l, k, k'))
  }

  lemma ServingBegins(clients: seq<Client>, l: Level, k: Counters)
    requires LevelGiven(clients, l, k)
    ensures Serving(clients, |clients|, [], l, k, k)
  {
    assert clients[|clients|..] == [];
  }

  lemma ServingGoesOn(clients: seq<Client>, i: nat, out: seq<Client>, l: Level, k: Counters, k': Counters)
    requires LevelGiven(clients, l, k) && i < |clients| && Serving(clients, i + 1, out, l, k, k')
    requires clients[i].maxWorkers + SumMax(clients[i + 1..]) <= l.demand
    ensures var (c, k'') := Serve(clients[i], l, k'); Serving(clients, i, [c] + out, l, k, k'')
  {
    ServeNext(clients[i], clients[i + 1..], out, l, k, k');
    assert clients[i..] == [clients[i]] + clients[i + 1..];
    if l.softLimit > 0 {
      ServeNextFairly(clients[i], clients[i + 1..], out, l, k');
    } else {
      ServeNextMandatory(clients[i], clients[i + 1..], out, l, k, k');
    }
  }

  /** The carry is used up at the end of a level. */
  lemma ServingEnds(clients: seq<Client>, out: seq<Client>, l: Level, k: Counters, k': Counters)
    requires LevelGiven(clients, l, k) && Serving(clients, 0, out, l, k, k')
    ensures Served(clients, out, l, k, k') && k'.carry == 0
    ensures l.softLimit > 0 ==> FairLevel(out, l.workers, l.demand)
    ensures l.softLimit == 0 ==> ServedMandatory(clients, out, l, k, k')
  {
    assert clients[0..] == clients;
    if l.softLimit > 0 && l.demand > 0 {
      SameQuotient(l.demand, SumAllotted(out), k'.carry, l.workers, 0);
    }
  }

  /** The inner loop of update_allotment: serves the clients of one level, last added first. */
  method AllotLevel(clients: seq<Client>, l: Level, k: Counters) returns (out: seq<Client>, k': Counters)
    requires LevelGiven(clients, l, k)
    ensures Served(clients, out, l, k, k') && k'.carry == 0
    ensures l.softLimit > 0 ==> FairLevel(out, l.workers, l.demand)
    ensures l.softLimit == 0 ==> ServedMandatory(clients, out, l, k, k')
  {
    out, k' := [], k;
    var i: nat := |clients|;
    ServingBegins(clients, l, k);
    while i > 0
      invariant Serving(clients, i, out, l, k, k')
    {
      i := i - 1;
      MaxWithin(clients, i);
      ServingGoesOn(clients, i, out, l, k, k');
      var served := Serve(clients[i], l, k');
      out, k' := [served.0] + out, served.1;
    }
    ServingEnds(clients, out, l, k, k');
  }

  lemma MaxWithin(cs: seq<Client>, i: nat)
    requires i < |cs|
    ensures cs[i].maxWorkers + SumMax(cs[i + 1..]) <= SumMax(cs)
  {
    assert cs == cs[..i] + ([cs[i]] + cs[i + 1..]);
    SumConcat(cs[..i], [cs[i]] + cs[i + 1..], MaxOf);
    SumFront(cs[i], cs[i + 1..], MaxOf);
    SumNonNegative(cs[..i], MaxOf);
  }

  // ---------------------------------------------------------------- all levels

  function Itself(x: int): int { x }

  function Total(d: seq<int>): int { Sum(d, Itself) }

  /** What level l gets of the given workers: higher levels come first. */
  function Portion(demands: seq<int>, l: nat, workers: int): int
    requires l < |demands|
  {
    var left := workers - Total(demands[..l]);
    if left <= 0 then 0 else Min(demands[l], left)
  }

  /** A level gets workers only if every higher level is fully satisfied. */
  lemma StrictPriority(demands: seq<int>, h: nat, l: nat, workers: int)
    requires h < l < |demands| && (forall i :: 0 <= i < |demands| ==> demands[i] >= 0)
    requires Portion(demands, l, workers) > 0
    ensures Portion(demands, h, workers) == demands[h]
  {
    TotalGrows(demands, h + 1, l);
    assert demands[..h + 1][..h] == demands[..h];
  }

  lemma {:induction false} TotalGrows(d: seq<int>, m: nat, n: nat)
    requires m <= n <= |d| && forall i :: 0 <= i < |d| ==> d[i] >= 0
    ensures Total(d[..m]) <= Total(d[..n])
    decreases n
  {
    if m < n {
      assert d[..n][..n - 1] == d[..n - 1];
      TotalGrows(d, m, n - 1);
    }
  }

  function Allotted(levels: seq<seq<Client>>): int { Sum(levels, SumAllotted) }

  /** The portions of the levels add up to the smaller of demand and workers. */
  lemma {:induction false} PortionsTotal(levels: seq<seq<Client>>, demands: seq<int>, workers: nat)
    requires |levels| <= |demands| && forall i :: 0 <= i < |demands| ==> demands[i] >= 0
    requires forall l :: 0 <= l < |levels| ==> SumAllotted(levels[l]) == Portion(demands, l, workers)
    ensures Allotted(levels) == Min(Total(demands[..|levels|]), workers)
  {
    if levels != [] {
      var n := |levels| - 1;
      assert demands[..n + 1][..n] == demands[..n];
      PortionsTotal(levels[..n], demands, workers);
      TotalGrows(demands, 0, n);
    }
  }

  /** The first level with demand, or NUM_PRIORITY_LEVELS. */
  function TopOf(demands: seq<int>): nat {
    if demands == [] then NUM_PRIORITY_LEVELS
    else
      var n := |demands| - 1;
      var before := TopOf(demands[..n]);
      if before == NUM_PRIORITY_LEVELS && demands[n] > 0 then n else before
  }

  predicate IsTopLevel(demands: seq<int>, l: nat)
  {
    l < |demands| && demands[l] > 0 && forall h :: 0 <= h < l ==> demands[h] == 0
  }

  lemma TopLevelIs(demands: seq<int>, l: nat)
    requires l < |demands| <= NUM_PRIORITY_LEVELS && forall i :: 0 <= i < |demands| ==> demands[i] >= 0
    ensures l == TopOf(demands[..l + 1]) <==> IsTopLevel(demands, l)
  {
    TopOfBounds(demands, l);
    assert demands[..l + 1][..l] == demands[..l];
  }

  lemma {:induction false} TopOfBounds(demands: seq<int>, l: nat)
    requires l <= |demands| <= NUM_PRIORITY_LEVELS && forall i :: 0 <= i < |demands| ==> demands[i] >= 0
    ensures TopOf(demands[..l]) < l || TopOf(demands[..l]) == NUM_PRIORITY_LEVELS
    ensures TopOf(demands[..l]) == NUM_PRIORITY_LEVELS <==> forall h :: 0 <= h < l ==> demands[h] == 0
  {
    if l > 0 {
      assert demands[..l][..l - 1] == demands[..l - 1];
      TopOfBounds(demands, l - 1);
    }
  }

  lemma EligibleSoFar(levels: seq<seq<Client>>, idx: nat)
    requires idx < |levels|
    ensures SomeoneEligible(levels[..idx + 1]) <==> SomeoneEligible(levels[..idx]) || AnyEligible(levels[idx])
  {
    var a, b := levels[..idx], levels[..idx + 1];
    assert forall l :: 0 <= l < idx ==> a[l] == b[l];
    assert b[idx] == levels[idx];
  }

  /** Redistribution changes neither who is eligible nor who asked for how much. */
  lemma SameEligible(levels: seq<seq<Client>>, levels': seq<seq<Client>>)
    requires |levels'| == |levels| && forall l :: 0 <= l < |levels| ==> SameClients(levels[l], levels'[l])
    ensures SomeoneEligible(levels') == SomeoneEligible(levels)
  {
    forall l | 0 <= l < |levels|
      ensures AnyEligible(levels'[l]) == AnyEligible(levels[l])
    {
      EligibleAlike(levels[l], levels'[l]);
    }
  }

  lemma SameDemand(levels: seq<seq<Client>>, levels': seq<seq<Client>>)
    requires |levels'| == |levels| && forall l :: 0 <= l < |levels| ==> SameClients(levels[l], levels'[l])
    ensures forall l :: 0 <= l < |levels| ==> SumMax(levels'[l]) == SumMax(levels[l])
  {
    forall l | 0 <= l < |levels|
      ensures SumMax(levels'[l]) == SumMax(levels[l])
    {
      SameMax(levels[l], levels'[l]);
    }
  }

  lemma {:induction false} SameMax(cs: seq<Client>, cs': seq<Client>)
    requires SameClients(cs, cs')
    ensures SumMax(cs') == SumMax(cs)
  {
    if cs != [] {
      SameMax(cs[..|cs| - 1], cs'[..|cs| - 1]);
    }
  }

  predicate SomeoneEligible(levels: seq<seq<Client>>) { exists l :: 0 <= l < |levels| && AnyEligible(levels[l]) }

  /** With soft limit zero the first level with an eligible client gets the workers there are. */
  function MandatoryPortion(levels: seq<seq<Client>>, l: nat, workers: int): int
    requires l < |levels|
  {
    if AnyEligible(levels[l]) && !SomeoneEligible(levels[..l]) then workers else 0
  }

  /** The counters once n levels have been served. */
  ghost predicate CountersOk(clients: seq<seq<Client>>, demands: seq<int>, softLimit: nat, maxWorkers: nat,
                             done: seq<seq<Client>>, k: Counters, unassigned: int)
  {
    var n := |done|;
    && n <= |clients| == |demands| == NUM_PRIORITY_LEVELS && k.carry == 0
    && unassigned == (if maxWorkers <= Total(demands[..n]) then 0 else maxWorkers - Total(demands[..n]))
    && k.topLevel == TopOf(demands[..n])
    && k.handed == Allotted(done)
    && (softLimit == 0 ==> maxWorkers <= 1 && k.handed == if SomeoneEligible(clients[..n]) then maxWorkers else 0)
  }

  /** What holds of a level that has been served. */
  ghost predicate LevelOk(cs: seq<Client>, out: seq<Client>, demands: seq<int>, l: nat, softLimit: nat, maxWorkers: nat,
                          mandatory: int)
  {
    && l < |demands|
    && SameClients(cs, out) && TopMarked(cs, out, IsTopLevel(demands, l))
    && (softLimit > 0 ==> FairLevel(out, Portion(demands, l, maxWorkers), demands[l]))
    && (softLimit == 0 ==> OnlyEligible(out) && SumAllotted(out) == mandatory)
  }

  /** The first |done| levels have been served. */
  ghost predicate Progress(clients: seq<seq<Client>>, demands: seq<int>, softLimit: nat, maxWorkers: nat,
                           done: seq<seq<Client>>, k: Counters, unassigned: int)
  {
    && CountersOk(clients, demands, softLimit, maxWorkers, done, k, unassigned)
    && forall l :: 0 <= l < |done| ==>
      LevelOk(clients[l], done[l], demands, l, softLimit, maxWorkers, MandatoryPortion(clients, l, maxWorkers))
  }

  /** Level n has just been served. */
  ghost predicate LevelServed(clients: seq<seq<Client>>, demands: seq<int>, softLimit: nat, maxWorkers: nat, n: nat,
                              k: Counters, level: seq<Client>, k': Counters, workers: nat, unassigned: int)
  {
    && n < |demands| == |clients| == NUM_PRIORITY_LEVELS
    && demands[n] == SumMax(clients[n]) && workers == Min(demands[n], unassigned + workers) && k'.carry == 0
    && var l := Level(n, demands[n], workers, softLimit, maxWorkers);
    && Served(clients[n], level, l, k, k')
    && (softLimit > 0 ==> FairLevel(level, workers, demands[n]))
    && (softLimit == 0 ==> ServedMandatory(clients[n], level, l, k, k'))
  }

  lemma AdvanceCounters(clients: seq<seq<Client>>, demands: seq<int>, softLimit: nat, maxWorkers: nat,
                        done: seq<seq<Client>>, k: Counters, level: seq<Client>, k': Counters, workers: nat,
                        unassigned: int)
    requires CountersOk(clients, demands, softLimit, maxWorkers, done, k, unassigned + workers)
    requires LevelServed(clients, demands, softLimit, maxWorkers, |done|, k, level, k', workers, unassigned)
    ensures CountersOk(clients, demands, softLimit, maxWorkers, done + [level], k', unassigned)
  {
    var n := |done|;
    assert demands[..n + 1][..n] == demands[..n];
    assert (done + [level])[..n] == done;
    EligibleSoFar(clients, n);
  }

  lemma AdvanceLevel(clients: seq<seq<Client>>, demands: seq<int>, softLimit: nat, maxWorkers: nat,
                     done: seq<seq<Client>>, k: Counters, level: seq<Client>, k': Counters, workers: nat,
                     unassigned: int)
    requires CountersOk(clients, demands, softLimit, maxWorkers, done, k, unassigned + workers)
    requires LevelServed(clients, demands, softLimit, maxWorkers, |done|, k, level, k', workers, unassigned)
    requires forall i :: 0 <= i < |demands| ==> demands[i] >= 0
    ensures LevelOk(clients[|done|], level, demands, |done|, softLimit, maxWorkers,
      MandatoryPortion(clients, |done|, maxWorkers))
  {
    var n := |done|;
    assert demands[..n + 1][..n] == demands[..n];
    TopLevelIs(demands, n);
  }

  lemma Advance(clients: seq<seq<Client>>, demands: seq<int>, softLimit: nat, maxWorkers: nat,
                done: seq<seq<Client>>, k: Counters, level: seq<Client>, k': Counters, workers: nat, unassigned: int)
    requires Progress(clients, demands, softLimit, maxWorkers, done, k, unassigned + workers)
    requires LevelServed(clients, demands, softLimit, maxWorkers, |done|, k, level, k', workers, unassigned)
    requires forall i :: 0 <= i < |demands| ==> demands[i] >= 0
    ensures Progress(clients, demands, softLimit, maxWorkers, done + [level], k', unassigned)
  {
    AdvanceCounters(clients, demands, softLimit, maxWorkers, done, k, level, k', workers, unassigned);
    AdvanceLevel(clients, demands, softLimit, maxWorkers, done, k, level, k', workers, unassigned);
  }

  lemma Complete(clients: seq<seq<Client>>, demands: seq<int>, softLimit: nat, maxWorkers: nat,
                 done: seq<seq<Client>>, k: Counters, unassigned: int)
    requires Progress(clients, demands, softLimit, maxWorkers, done, k, unassigned) && |done| == NUM_PRIORITY_LEVELS
    requires forall i :: 0 <= i < |demands| ==> demands[i] >= 0
    ensures Distributed(clients, demands, softLimit, maxWorkers, done, k.handed)
  {
    assert demands[..NUM_PRIORITY_LEVELS] == demands && clients[..NUM_PRIORITY_LEVELS] == clients;
    if softLimit > 0 {
      PortionsTotal(done, demands, maxWorkers);
    }
    SameEligible(clients, done);
    SameDemand(clients, done);
  }

  /** What a distribution of maxWorkers workers among the clients does. */
  ghost predicate Distributed(clients: seq<seq<Client>>, demands: seq<int>, softLimit: nat, maxWorkers: nat,
                              done: seq<seq<Client>>, handed: int)
  {
    && |clients| == |done| == |demands| == NUM_PRIORITY_LEVELS
    && (forall l :: 0 <= l < |done| ==> SameClients(clients[l], done[l]))
    && (softLimit > 0 ==> forall l :: 0 <= l < |done| ==>
      FairLevel(done[l], Portion(demands, l, maxWorkers), demands[l]))
    && (softLimit == 0 ==> forall l :: 0 <= l < |done| ==>
      OnlyEligible(done[l]) && SumAllotted(done[l]) == MandatoryPortion(clients, l, maxWorkers))
    && (forall l :: 0 <= l < |done| ==> TopMarked(clients[l], done[l], IsTopLevel(demands, l)))
    && handed == Allotted(done)
    && (softLimit > 0 ==> handed == Min(Total(demands), maxWorkers))
    && (softLimit == 0 ==> handed == if SomeoneEligible(done) then maxWorkers else 0)
    && (forall l :: 0 <= l < |done| ==> SumMax(done[l]) == SumMax(clients[l]))
  }

  /**
   What update_allotment achieves: the smaller of demand and soft limit is handed out, in strict priority and fairly on
   each level; with soft limit zero one worker if mandatory concurrency is requested and someone may have it, which goes
   to the last added such client of the first level that has one.
   */
  ghost predicate Allocation(levels: seq<seq<Client>>, demands: seq<int>, softLimit: nat, mandatory: int) {
    && |levels| == |demands|
    && (softLimit > 0 ==> Allotted(levels) == Min(Total(demands), softLimit))
    && (softLimit > 0 ==> forall l :: 0 <= l < |levels| ==>
      FairLevel(levels[l], Portion(demands, l, softLimit), demands[l]))
    && (softLimit == 0 ==> Allotted(levels) == if mandatory > 0 && SomeoneEligible(levels) then 1 else 0)
    && (softLimit == 0 ==> forall l :: 0 <= l < |levels| ==>
      OnlyEligible(levels[l]) && SumAllotted(levels[l]) == MandatoryPortion(levels, l, if mandatory > 0 then 1 else 0))
  }

  /** Workers beyond the demand make no difference. */
  lemma PortionCapped(demands: seq<int>, l: nat, workers: int)
    requires l < |demands| && forall i :: 0 <= i < |demands| ==> demands[i] >= 0
    ensures Portion(demands, l, Min(Total(demands), workers)) == Portion(demands, l, workers)
  {
    assert demands[..|demands|] == demands && demands[..l + 1][..l] == demands[..l];
    TotalGrows(demands, l + 1, |demands|);
  }

  lemma EligibleDemand(levels: seq<seq<Client>>, demands: seq<int>, l: nat)
    requires |levels| == |demands| && l < |levels| && AnyEligible(levels[l])
    requires forall k :: 0 <= k < |demands| ==> demands[k] == SumMax(levels[k])
    ensures Total(demands) > 0
  {
    var i :| 0 <= i < |levels[l]| && Eligible(levels[l][i]);
    SumAtLeast(levels[l], i, MaxOf);
    SumAtLeast(demands, l, Itself);
  }

  lemma AllocatedFairly(demands: seq<int>, softLimit: nat, maxWorkers: nat, done: seq<seq<Client>>)
    requires |done| == |demands| && softLimit > 0 && maxWorkers == Min(Total(demands), softLimit)
    requires forall i :: 0 <= i < |demands| ==> demands[i] >= 0
    requires forall l :: 0 <= l < |done| ==> FairLevel(done[l], Portion(demands, l, maxWorkers), demands[l])
    ensures forall l :: 0 <= l < |done| ==> FairLevel(done[l], Portion(demands, l, softLimit), demands[l])
  {
    forall l | 0 <= l < |done|
      ensures FairLevel(done[l], Portion(demands, l, softLimit), demands[l])
    {
      PortionCapped(demands, l, softLimit);
    }
  }

  lemma AllocatedMandatory(clients: seq<seq<Client>>, demands: seq<int>, mandatory: int, maxWorkers: nat,
                           done: seq<seq<Client>>, l: nat)
    requires |clients| == |done| == |demands| && l < |done|
    requires maxWorkers == Min(Total(demands), if mandatory > 0 then 1 else 0)
    requires forall k :: 0 <= k < |done| ==> SameClients(clients[k], done[k]) && demands[k] == SumMax(clients[k])
    ensures MandatoryPortion(clients, l, maxWorkers) == MandatoryPortion(done, l, if mandatory > 0 then 1 else 0)
  {
    EligibleAlike(clients[l], done[l]);
    SameEligible(clients[..l], done[..l]);
    if AnyEligible(clients[l]) {
      EligibleDemand(clients, demands, l);
    }
  }

  lemma Allocated(clients: seq<seq<Client>>, demands: seq<int>, softLimit: nat, mandatory: int, maxWorkers: nat,
                  done: seq<seq<Client>>, handed: int)
    requires Distributed(clients, demands, softLimit, maxWorkers, done, handed)
    requires forall k :: 0 <= k < |demands| ==> demands[k] == SumMax(clients[k])
    requires maxWorkers == Min(Total(demands), if mandatory > 0 && softLimit == 0 then 1 else softLimit)
    ensures Allocation(done, demands, softLimit, mandatory)
  {
    if softLimit > 0 {
      AllocatedFairly(demands, softLimit, maxWorkers, done);
    } else {
      forall l | 0 <= l < |done|
        ensures MandatoryPortion(clients, l, maxWorkers) == MandatoryPortion(done, l, if mandatory > 0 then 1 else 0)
      {
        AllocatedMandatory(clients, demands, mandatory, maxWorkers, done, l);
      }
      SameEligible(clients, done);
      if l :| 0 <= l < |clients| && AnyEligible(clients[l]) {
        EligibleDemand(clients, demands, l);
      }
    }
  }

  /** The outer loop of update_allotment: levels in the order of priority. */
  method AllotLevels(clients: seq<seq<Client>>, demands: seq<int>, softLimit: nat, maxWorkers: nat)
    returns (done: seq<seq<Client>>, handed: int)
    requires |clients| == |demands| == NUM_PRIORITY_LEVELS && (softLimit == 0 ==> maxWorkers <= 1)
    requires forall l :: 0 <= l < |demands| ==> demands[l] == SumMax(clients[l])
    ensures Distributed(clients, demands, softLimit, maxWorkers, done, handed)
  {
    var unassigned: int := maxWorkers;
    var k := Counters(0, 0, NUM_PRIORITY_LEVELS);
    done := [];
    for idx := 0 to NUM_PRIORITY_LEVELS
      invariant |done| == idx
      invariant Progress(clients, demands, softLimit, maxWorkers, done, k, unassigned)
    {
      var workers := Min(demands[idx], unassigned);
      unassigned := unassigned - workers;
      ghost var k0 := k;
      var level;
      level, k := AllotLevel(clients[idx], Level(idx, demands[idx], workers, softLimit, maxWorkers), k);
      Advance(clients, demands, softLimit, maxWorkers, done, k0, level, k, workers, unassigned);
      done := done + [level];
    }
    Complete(clients, demands, softLimit, maxWorkers, done, k, unassigned);
    handed := k.handed;
  }

  /**
   Level demands are the sums of their clients' demands, the total is the sum of them, and clients follow their arenas.
   */
  ghost predicate Balanced(total: int, demands: seq<int>, clients: seq<seq<Client>>) {
    && |demands| == |clients| == NUM_PRIORITY_LEVELS
    && (forall l :: 0 <= l < NUM_PRIORITY_LEVELS ==> demands[l] == SumMax(clients[l]))
    && total == Total(demands)
    && (forall l, i :: 0 <= l < |clients| && 0 <= i < |clients[l]| ==> UpToDate(clients[l][i]))
  }

  lemma Rebalanced(total: int, demands: seq<int>, clients: seq<seq<Client>>, level: nat, i: nat, c: Client)
    requires Balanced(total, demands, clients) && level < |clients| && i < |clients[level]| && UpToDate(c)
    ensures var delta := c.maxWorkers - clients[level][i].maxWorkers;
      Balanced(total + delta, demands[level := demands[level] + delta], clients[level := clients[level][i := c]])
  {
    SumUpdate(clients[level], i, c, MaxOf);
    SumUpdate(demands, level, demands[level] + c.maxWorkers - clients[level][i].maxWorkers, Itself);
  }

  /** A level may be exchanged for one with the same demand whose clients follow their arenas. */
  lemma LevelExchanged(total: int, demands: seq<int>, clients: seq<seq<Client>>, level: nat, cs: seq<Client>)
    requires Balanced(total, demands, clients) && level < |clients|
    requires SumMax(cs) == SumMax(clients[level]) && forall i :: 0 <= i < |cs| ==> UpToDate(cs[i])
    ensures Balanced(total, demands, clients[level := cs])
  {
    var clients' := clients[level := cs];
    forall l, i | 0 <= l < |clients'| && 0 <= i < |clients'[l]|
      ensures UpToDate(clients'[l][i])
    {
      assert l != level ==> UpToDate(clients[l][i]);
    }
  }

  class MarketState {
    var softLimit: nat                 // my_num_workers_soft_limit
    var totalDemand: int               // my_total_demand
    var levelDemand: seq<int>          // my_priority_level_demand
    var mandatoryRequested: int        // my_mandatory_num_requested
    var clients: seq<seq<Client>>      // my_clients, one list per priority level

    ghost predicate Valid()
      reads this
    {
      Balanced(totalDemand, levelDemand, clients)
    }

    constructor (softLimit: nat)
      ensures Valid() && this.softLimit == softLimit && clients == [[], [], []]
      ensures totalDemand == 0 && mandatoryRequested == 0
    {
      this.softLimit := softLimit;
      totalDemand, mandatoryRequested := 0, 0;
      levelDemand, clients := [0, 0, 0], [[], [], []];
      new;
      assert [0, 0, 0][..2] == [0, 0] && [0, 0][..1] == [0] && [0][..0] == [];
    }

    /** The workers there are to hand out. */
    function MaxWorkersToGive(): int
      reads this
    {
      Min(totalDemand, if mandatoryRequested > 0 && softLimit == 0 then 1 else softLimit)
    }

    /** update_allotment: recalculates every client's allotment. */
    method UpdateAllotment() returns (handed: int)
      requires Valid()
      modifies this`clients
      ensures Valid()
      ensures forall l :: 0 <= l < |clients| ==> SameClients(old(clients)[l], clients[l])
      ensures Allocation(clients, levelDemand, softLimit, mandatoryRequested)
      ensures forall l :: 0 <= l < |clients| ==> TopMarked(old(clients)[l], clients[l], IsTopLevel(levelDemand, l))
      ensures handed == Allotted(clients)
      ensures handed == MaxWorkersToGive() <==> softLimit > 0 || MaxWorkersToGive() == 0 || SomeoneEligible(clients)
    {
      DemandsNonNegative();
      var done;
      done, handed := AllotLevels(clients, levelDemand, softLimit, MaxWorkersToGive());
      Allocated(clients, levelDemand, softLimit, mandatoryRequested, MaxWorkersToGive(), done, handed);
      clients := done;
    }

    /**
     adjust_demand: a client's arena sends deltas; returns the change of demand passed on to the thread dispatcher.
     */
    method AdjustDemand(level: nat, i: nat, mandatoryDelta: int, workersDelta: int) returns (delta: int, handed: int)
      requires Valid() && level < NUM_PRIORITY_LEVELS && i < |clients[level]| && -1 <= mandatoryDelta <= 1
      modifies this
      ensures Valid() && softLimit == old(softLimit)
      ensures forall l :: 0 <= l < |clients| ==> |clients[l]| == |old(clients)[l]|
      ensures forall l, j :: 0 <= l < |clients| && 0 <= j < |clients[l]| && (l != level || j != i) ==>
        clients[l][j].request == old(clients)[l][j].request
      ensures clients[level][i].request == Updated(old(clients)[level][i].request, mandatoryDelta, workersDelta)
      ensures delta == MaxWorkers(clients[level][i].request) - MaxWorkers(old(clients)[level][i].request)
      ensures totalDemand == old(totalDemand) + delta && mandatoryRequested == old(mandatoryRequested) + mandatoryDelta
      ensures Allocation(clients, levelDemand, softLimit, mandatoryRequested) && handed == Allotted(clients)
      ensures handed == MaxWorkersToGive() <==> softLimit > 0 || MaxWorkersToGive() == 0 || SomeoneEligible(clients)
    {
      delta := UpdateRequest(level, i, mandatoryDelta, workersDelta);
      label requested:
      handed := UpdateAllotment();
      forall l, j | 0 <= l < |clients| && 0 <= j < |clients[l]|
        ensures clients[l][j].request == old@requested(clients)[l][j].request
      {
        assert SameClients(old@requested(clients)[l], clients[l]);
      }
    }

    /** The part of adjust_demand before update_allotment: pm_client::update_request and the demand counters. */
    method UpdateRequest(level: nat, i: nat, mandatoryDelta: int, workersDelta: int) returns (delta: int)
      requires Valid() && level < NUM_PRIORITY_LEVELS && i < |clients[level]| && -1 <= mandatoryDelta <= 1
      modifies this
      ensures Valid() && softLimit == old(softLimit)
      ensures var c := old(clients)[level][i];
              var request := Updated(c.request, mandatoryDelta, workersDelta);
              && clients == old(clients)[level := old(clients)[level][i :=
                   c.(request := request, minWorkers := MinWorkers(request), maxWorkers := MaxWorkers(request))]]
              && delta == MaxWorkers(request) - MaxWorkers(c.request)
      ensures totalDemand == old(totalDemand) + delta && mandatoryRequested == old(mandatoryRequested) + mandatoryDelta
    {
      var c := clients[level][i];
      var request := Updated(c.request, mandatoryDelta, workersDelta);
      delta := MaxWorkers(request) - c.maxWorkers;
      var c' := c.(request := request, minWorkers := MinWorkers(request), maxWorkers := MaxWorkers(request));
      assert UpToDate(c);
      Rebalanced(totalDemand, levelDemand, clients, level, i, c');
      clients := clients[level := clients[level][i := c']];
      totalDemand := totalDemand + delta;
      levelDemand := levelDemand[level := levelDemand[level] + delta];
      mandatoryRequested := mandatoryRequested + mandatoryDelta;
    }

    /** set_active_num_workers */
    method SetActiveNumWorkers(limit: nat)
      requires Valid()
      modifies this
      ensures Valid() && softLimit == limit && totalDemand == old(totalDemand) && levelDemand == old(levelDemand)
      ensures forall l :: 0 <= l < |clients| ==> SameClients(old(clients)[l], clients[l])
      ensures limit == old(softLimit) ==> clients == old(clients)
      ensures mandatoryRequested == old(mandatoryRequested)
      ensures limit != old(softLimit) ==> Allocation(clients, levelDemand, limit, mandatoryRequested)
    {
      if softLimit != limit {
        softLimit := limit;
        var _ := UpdateAllotment();
      }
    }

    /** register_client */
    method RegisterClient(level: nat, maxNumWorkers: nat)
      requires Valid() && level < NUM_PRIORITY_LEVELS
      modifies this`clients
      ensures Valid()
      ensures clients == old(clients)[level := old(clients)[level] + [NewClient(maxNumWorkers)]]
    {
      var cs := clients[level] + [NewClient(maxNumWorkers)];
      SumAppend(clients[level], NewClient(maxNumWorkers), MaxOf);
      assert forall i :: 0 <= i < |cs| - 1 ==> cs[i] == clients[level][i] && UpToDate(clients[level][i]);
      LevelExchanged(totalDemand, levelDemand, clients, level, cs);
      clients := clients[level := cs];
    }

    /** unregister_and_destroy_client: an arena is destroyed only after it has given up its requests. */
    method UnregisterClient(level: nat, i: nat)
      requires Valid() && level < NUM_PRIORITY_LEVELS && i < |clients[level]| && clients[level][i].request.workers == 0
      modifies this`clients
      ensures Valid()
      ensures clients == old(clients)[level := old(clients)[level][..i] + old(clients)[level][i + 1..]]
    {
      var cs := clients[level];
      assert UpToDate(cs[i]);
      IdleRemoved(cs, i);
      assert forall j :: 0 <= j < |cs| ==> UpToDate(cs[j]);
      LevelExchanged(totalDemand, levelDemand, clients, level, cs[..i] + cs[i + 1..]);
      clients := clients[level := cs[..i] + cs[i + 1..]];
    }

    lemma DemandsNonNegative()
      requires Valid()
      ensures totalDemand >= 0 && forall l :: 0 <= l < |levelDemand| ==> levelDemand[l] >= 0
    {
      TotalGrows(levelDemand, 0, |levelDemand|);
      assert levelDemand[..|levelDemand|] == levelDemand;
    }
  }

  lemma IdleRemoved(cs: seq<Client>, i: nat)
    requires i < |cs| && cs[i].maxWorkers == 0
    ensures SumMax(cs[..i] + cs[i + 1..]) == SumMax(cs)
  {
    assert cs == cs[..i] + ([cs[i]] + cs[i + 1..]);
    SumConcat(cs[..i], [cs[i]] + cs[i + 1..], MaxOf);
    SumFront(cs[i], cs[i + 1..], MaxOf);
    SumConcat(cs[..i], cs[i + 1..], MaxOf);
  }

  /** A client whose arena has asked for nothing yet. */
  function NewClient(maxNumWorkers: nat): Client { Client(Request(maxNumWorkers, 0, 0), 0, 0, 0, false) }

  /** A client's workers are those of its arena's request. */
  predicate UpToDate(c: Client) {
    c.minWorkers == MinWorkers(c.request) && c.maxWorkers == MaxWorkers(c.request)
  }

  /** Two arenas on one level, the first one with mandatory concurrency and without workers, and soft limit 0. */
  ghost predicate Short(m: MarketState)
    reads m
  {
    && m.Valid() && m.softLimit == 0 && m.mandatoryRequested == 1 && m.totalDemand == 0
    && |m.clients[0]| == 2 && m.clients[1] == m.clients[2] == []
    && m.clients[0][0].request == Request(2, 1, 0) && m.clients[0][1].request == Request(3, 0, 0)
  }

  /** The first arena sends its mandatory request ahead of its workers. */
  method MandatoryAheadOfWorkers() returns (m: MarketState)
    ensures fresh(m) && Short(m)
  {
    m := TwoArenas();
    var _, _ := m.AdjustDemand(0, 0, 1, 0);
  }

  /** It asks for both and then gives back the workers only. */
  method WorkersGivenBack() returns (m: MarketState)
    ensures fresh(m) && Short(m)
  {
    m := TwoArenas();
    var _, _ := m.AdjustDemand(0, 0, 1, 2);
    var _, _ := m.AdjustDemand(0, 0, 0, -2);
  }

  /** Two arenas that have asked for nothing yet. */
  method TwoArenas() returns (m: MarketState)
    ensures fresh(m) && m.Valid() && m.softLimit == 0 && m.mandatoryRequested == 0 && m.totalDemand == 0
    ensures m.clients == [[NewClient(2), NewClient(3)], [], []]
  {
    m := new MarketState(0);
    m.RegisterClient(0, 2);
    assert m.clients[0] == [NewClient(2)];
    m.RegisterClient(0, 3);
    assert m.clients[0] == [NewClient(2), NewClient(3)] && m.clients[1] == m.clients[2] == [];
  }

  /**
   The closing assertion of update_allotment can fail: with soft limit zero, a client with mandatory concurrency and
   without workers makes one worker available that nobody may take once another client asks for workers.
   */
  method MandatoryUnserved(m: MarketState) returns (handed: int)
    requires Short(m)
    modifies m
    ensures m.Valid() && handed == Allotted(m.clients) && m.MaxWorkersToGive() == 1 && handed == 0
    ensures m.mandatoryRequested == 1 && m.totalDemand == 3
  {
    var delta;
    delta, handed := m.AdjustDemand(0, 1, 0, 3);
    assert UpToDate(m.clients[0][0]) && UpToDate(m.clients[0][1]);
    assert !AnyEligible(m.clients[0]) && !AnyEligible(m.clients[1]) && !AnyEligible(m.clients[2]);
  }
}
