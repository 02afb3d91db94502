/**
 The mailbox of task proxies (mail_outbox::push and internal_pop in src/tbb/mailbox.h): a linked queue with any number
 of pushers and one popping owner. A push exchanges my_last and stores the link in two separate steps, so a proxy may be
 in the queue before anything points to it. A step is one atomic access.
 */
module Mailbox {
  import opened Wrappers
  import opened Sequences

  /** A location that holds a pointer to a proxy: my_first or the next_in_mailbox field of a proxy. */
  datatype Loc = First | Next(p: nat)

  datatype Push =
    | Waiting              // not pushed yet
    | Cleared              // next_in_mailbox is null, about to exchange my_last
    | Linking(link: Loc)   // about to store the proxy in the location the exchange returned
    | Done

  datatype Proxy = Proxy(isolation: nat, next: Option<nat>, push: Push)

  /** Where the owner is in internal_pop; at counts the proxies it has walked past. */
  datatype Owner =
    | Resting
    | Loading(prev: Loc, at: nat)                              // about to load *prev
    | Second(prev: Loc, curr: nat, at: nat)                    // about to load curr->next_in_mailbox
    | Unlinking(prev: Loc, curr: nat, second: nat, at: nat)    // about to store second in *prev
    | Clearing(prev: Loc, curr: nat, at: nat)                  // about to store null in *prev
    | Swinging(prev: Loc, curr: nat, at: nat)                  // about to try my_last: &curr->next_in_mailbox -> prev
    | Spinning(prev: Loc, curr: nat, at: nat)                  // waits for curr->next_in_mailbox

  datatype State = State(
    first: Option<nat>,    // my_first
    last: Loc,             // my_last
    proxies: seq<Proxy>,
    owner: Owner,
    wanted: Option<nat>,   // the isolation argument of the current pop, None for no_isolation
    pushed: seq<nat>,      // history: proxies in the order of their exchanges
    popped: seq<nat>,      // history: proxies returned by pop
    box: seq<nat>)         // history: the queue the links represent

  datatype Step = Clear(p: nat) | Exchange(p: nat) | Link(p: nat) | BeginPop(iso: Option<nat>) | Pop

  predicate Init(s: State) {
    && s.first == None && s.last == First && s.owner == Resting && s.pushed == [] && s.popped == [] && s.box == []
    && forall p :: 0 <= p < |s.proxies| ==> s.proxies[p].push == Waiting
  }

  predicate Valid(s: State, l: Loc) { l.Next? ==> l.p < |s.proxies| }

  function Read(s: State, l: Loc): Option<nat>
    requires Valid(s, l)
  {
    if l == First then s.first else s.proxies[l.p].next
  }

  function Write(s: State, l: Loc, v: Option<nat>): State
    requires Valid(s, l)
  {
    if l == First then s.(first := v) else s.(proxies := s.proxies[l.p := s.proxies[l.p].(next := v)])
  }

  function SetPush(s: State, p: nat, push: Push): State
    requires p < |s.proxies|
  {
    s.(proxies := s.proxies[p := s.proxies[p].(push := push)])
  }

  /** The current pop may return proxy p. */
  predicate Matches(s: State, p: nat)
    requires p < |s.proxies|
  {
    s.wanted == None || s.proxies[p].isolation == s.wanted.value
  }

  predicate OwnerValid(s: State) {
    match s.owner
    case Resting => true
    case Loading(prev, _) => Valid(s, prev) && (Read(s, prev).Some? ==> Read(s, prev).value < |s.proxies|)
    case _ => Valid(s, s.owner.prev) && s.owner.curr < |s.proxies| && s.owner.at < |s.box|
  }

  predicate Enabled(s: State, a: Step) {
    match a
    case Clear(p) => p < |s.proxies| && s.proxies[p].push == Waiting
    case Exchange(p) => p < |s.proxies| && s.proxies[p].push == Cleared
    case Link(p) => p < |s.proxies| && s.proxies[p].push.Linking? && Valid(s, s.proxies[p].push.link)
    case BeginPop(_) => s.owner == Resting
    case Pop => s.owner != Resting && OwnerValid(s)
  }

  /** The pop of the current proxy takes effect. */
  function Return(s: State): State
    requires s.owner != Resting && !s.owner.Loading? && s.owner.at < |s.box|
  {
    s.(owner := Resting, popped := s.popped + [s.owner.curr], box := Cut(s.box, s.owner.at))
  }

  function PopStep(s: State): State
    requires Enabled(s, Pop)
  {
    match s.owner
    case Loading(prev, at) =>
      (match Read(s, prev)
       case None => s.(owner := Resting)
       case Some(curr) => s.(owner := if Matches(s, curr) then Second(prev, curr, at) else Loading(Next(curr), at + 1)))
    case Second(prev, curr, at) =>
      (match s.proxies[curr].next
       case Some(second) => s.(owner := Unlinking(prev, curr, second, at))
       case None => s.(owner := Clearing(prev, curr, at)))
    case Unlinking(prev, curr, second, at) => Return(Write(s, prev, Some(second)))
    case Clearing(prev, curr, at) => Write(s, prev, None).(owner := Swinging(prev, curr, at))
    case Swinging(prev, curr, at) =>
      if s.last == Next(curr) then Return(s.(last := prev)) else s.(owner := Spinning(prev, curr, at))
    case Spinning(prev, curr, at) =>
      (match s.proxies[curr].next
       case Some(second) => s.(owner := Unlinking(prev, curr, second, at))
       case None => s)
  }

  function Apply(s: State, a: Step): State
    requires Enabled(s, a)
  {
    match a
    case Clear(p) => SetPush(Write(s, Next(p), None), p, Cleared)
    case Exchange(p) => SetPush(s, p, Linking(s.last)).(last := Next(p), pushed := s.pushed + [p], box := s.box + [p])
    case Link(p) => SetPush(Write(s, s.proxies[p].push.link, Some(p)), p, Done)
    case BeginPop(iso) => s.(owner := Loading(First, 0), wanted := iso)
    case Pop => PopStep(s)
  }

  // ---------------------------------------------------------------- invariant

  /** The location that points, or will point, to position k of the queue. */
  function LocAt(box: seq<nat>, k: nat): Loc
    requires k <= |box|
  {
    if k == 0 then First else Next(box[k - 1])
  }

  /** The owner has chosen the proxy at position k and may have cleared the location that points to it. */
  predicate Chosen(s: State, k: nat) {
    (s.owner.Swinging? || s.owner.Spinning? || s.owner.Unlinking?) && s.owner.at == k
  }

  /** Position k is linked, or its pusher is about to link it, or the owner is taking it out. */
  predicate CellOk(s: State, k: nat) {
    && k < |s.box| && s.box[k] < |s.proxies| && Valid(s, LocAt(s.box, k))
    && var v, push := Read(s, LocAt(s.box, k)), s.proxies[s.box[k]].push;
       || (push == Linking(LocAt(s.box, k)) && v == None)
       || (push == Done && v == Some(s.box[k]))
       || (push == Done && v == None && Chosen(s, k))
  }

  /** A proxy is in the box between its exchange and its pop. */
  predicate ProxyOk(s: State, p: nat)
    requires p < |s.proxies|
  {
    && (p in s.pushed <==> s.proxies[p].push.Linking? || s.proxies[p].push == Done)
    && (p in s.box <==> p in s.pushed && p !in s.popped)
    && (p in s.popped ==> s.proxies[p].push == Done)
    && (s.proxies[p].push == Cleared ==> s.proxies[p].next == None)
  }

  predicate Skipped(s: State, at: nat) {
    at <= |s.box| && forall j :: 0 <= j < at ==> s.box[j] < |s.proxies| && !Matches(s, s.box[j])
  }

  predicate OwnerOk(s: State) {
    s.owner != Resting ==>
      && Skipped(s, s.owner.at) && s.owner.prev == LocAt(s.box, s.owner.at)
      && (s.owner.Loading? || Holds(s, s.owner.curr, s.owner.at))
      && (s.owner.Unlinking? ==> Linked(s, s.owner.second, s.owner.at + 1))
      && (s.owner.Spinning? ==> s.owner.at + 1 < |s.box|)
      && (s.owner.Swinging? ==> Valid(s, s.owner.prev) && Read(s, s.owner.prev) == None)
  }

  /** The proxy at position k, whose push is complete. */
  predicate Linked(s: State, p: nat, k: nat) {
    k < |s.box| && p == s.box[k] && p < |s.proxies| && s.proxies[p].push == Done
  }

  predicate Holds(s: State, p: nat, k: nat) { Linked(s, p, k) && Matches(s, p) }

  predicate Tail(s: State) {
    s.last == LocAt(s.box, |s.box|) && Valid(s, s.last) && Read(s, s.last) == None
  }

  ghost predicate Links(s: State) {
    && (forall p :: p in s.pushed ==> p < |s.proxies|)
    && (forall p :: 0 <= p < |s.proxies| ==> ProxyOk(s, p))
    && (forall k :: 0 <= k < |s.box| ==> CellOk(s, k))
    && Distinct(s.box)
    && Tail(s)
    && OwnerOk(s)
  }

  lemma LocsDiffer(box: seq<nat>, i: nat, j: nat)
    requires Distinct(box) && i < j <= |box|
    ensures LocAt(box, i) != LocAt(box, j)
  {
  }

  lemma IsLast(box: seq<nat>, k: nat)
    requires Distinct(box) && k <= |box| && LocAt(box, k) == LocAt(box, |box|)
    ensures k == |box|
  {
    if k < |box| {
      LocsDiffer(box, k, |box|);
    }
  }

  // ---------------------------------------------------------------- pushers

  lemma ClearLinks(s: State, p: nat)
    requires Links(s) && Enabled(s, Clear(p))
    ensures Links(Apply(s, Clear(p)))
  {
    var s' := Apply(s, Clear(p));
    assert ProxyOk(s, p);
    forall x | 0 <= x < |s'.proxies|
      ensures ProxyOk(s', x)
    {
      assert ProxyOk(s, x);
    }
    forall k | 0 <= k < |s'.box|
      ensures CellOk(s', k)
    {
      assert CellOk(s, k);
      assert s.box[k] in s.box;
      assert k > 0 ==> s.box[k - 1] in s.box;
    }
    assert |s.box| > 0 ==> s.box[|s.box| - 1] in s.box;
  }

  lemma ExchangeLinks(s: State, p: nat)
    requires Links(s) && Enabled(s, Exchange(p))
    ensures Links(Apply(s, Exchange(p)))
  {
    var s' := Apply(s, Exchange(p));
    assert ProxyOk(s, p);
    forall x | 0 <= x < |s'.proxies|
      ensures ProxyOk(s', x)
    {
      assert ProxyOk(s, x);
    }
    forall k | 0 <= k < |s'.box|
      ensures CellOk(s', k)
    {
      assert k < |s.box| ==> CellOk(s, k);
      ExchangeCell(s, p, k);
    }
  }

  lemma ExchangeCell(s: State, p: nat, k: nat)
    requires Enabled(s, Exchange(p)) && Tail(s) && p !in s.box && k <= |s.box| && (k < |s.box| ==> CellOk(s, k))
    requires s.proxies[p].next == None
    ensures CellOk(Apply(s, Exchange(p)), k)
  {
    assert LocAt(Apply(s, Exchange(p)).box, k) == LocAt(s.box, k);
    assert k < |s.box| ==> s.box[k] in s.box;
  }

  lemma LinkCell(s: State, p: nat, j: nat, k: nat)
    requires Enabled(s, Link(p)) && Distinct(s.box) && CellOk(s, j) && s.box[j] == p && k < |s.box| && CellOk(s, k)
    ensures CellOk(Apply(s, Link(p)), k)
  {
    if k < j {
      LocsDiffer(s.box, k, j);
    } else if j < k {
      LocsDiffer(s.box, j, k);
    }
  }

  lemma LinkLinks(s: State, p: nat)
    requires Links(s) && Enabled(s, Link(p))
    ensures Links(Apply(s, Link(p)))
  {
    var s' := Apply(s, Link(p));
    assert ProxyOk(s, p);
    var j :| 0 <= j < |s.box| && s.box[j] == p;
    assert CellOk(s, j);
    forall x | 0 <= x < |s'.proxies|
      ensures ProxyOk(s', x)
    {
      assert ProxyOk(s, x);
      LinkProxy(s, p, j, x);
    }
    forall k | 0 <= k < |s'.box|
      ensures CellOk(s', k)
    {
      LinkCell(s, p, j, k);
    }
    LinkRest(s, p, j);
  }

  lemma LinkRest(s: State, p: nat, j: nat)
    requires Enabled(s, Link(p)) && Distinct(s.box) && CellOk(s, j) && s.box[j] == p && Tail(s) && OwnerOk(s)
    ensures Tail(Apply(s, Link(p))) && OwnerOk(Apply(s, Link(p)))
  {
    LocsDiffer(s.box, j, |s.box|);
    if s.owner != Resting {
      LinkOwner(s, p, j);
    }
  }

  lemma LinkOwner(s: State, p: nat, j: nat)
    requires Enabled(s, Link(p)) && Distinct(s.box) && CellOk(s, j) && s.box[j] == p && OwnerOk(s) && s.owner != Resting
    ensures OwnerOk(Apply(s, Link(p)))
  {
    var s', at := Apply(s, Link(p)), s.owner.at;
    assert forall x :: 0 <= x < |s.proxies| ==> s'.proxies[x].isolation == s.proxies[x].isolation;
    assert forall x :: 0 <= x < |s.proxies| && s.proxies[x].push == Done ==> s'.proxies[x].push == Done;
    assert Skipped(s', at);
    if at < j {
      LocsDiffer(s.box, at, j);
    } else if j < at {
      LocsDiffer(s.box, j, at);
    }
  }

  lemma LinkProxy(s: State, p: nat, j: nat, x: nat)
    requires Enabled(s, Link(p)) && CellOk(s, j) && s.box[j] == p && x < |s.proxies| && ProxyOk(s, x)
    ensures ProxyOk(Apply(s, Link(p)), x)
  {
    assert j > 0 ==> s.box[j - 1] in s.box;
  }

  // ---------------------------------------------------------------- the owner

  /** The owner moves on without storing anything. */
  lemma WalkLinks(s: State)
    requires Links(s) && Enabled(s, Pop) && (s.owner.Loading? || s.owner.Second? || s.owner.Spinning?)
    ensures Links(PopStep(s))
  {
    var s' := PopStep(s);
    assert s.owner.at < |s.box| ==> CellOk(s, s.owner.at);
    assert s.owner.at + 1 < |s.box| ==> CellOk(s, s.owner.at + 1);
    WalkOwner(s);
    assert s' == s.(owner := s'.owner);
    forall x | 0 <= x < |s'.proxies|
      ensures ProxyOk(s', x)
    {
      assert ProxyOk(s, x);
    }
    forall k | 0 <= k < |s'.box|
      ensures CellOk(s', k)
    {
      assert CellOk(s, k);
    }
  }

  lemma WalkOwner(s: State)
    requires Enabled(s, Pop) && (s.owner.Loading? || s.owner.Second? || s.owner.Spinning?)
    requires OwnerOk(s) && Tail(s) && (s.owner.at < |s.box| ==> CellOk(s, s.owner.at))
    requires s.owner.at + 1 < |s.box| ==> CellOk(s, s.owner.at + 1)
    ensures OwnerOk(PopStep(s))
  {
    var at := s.owner.at;
    if s.owner.Loading? {
      assert LocAt(s.box, at) == s.owner.prev;
    } else {
      assert at + 1 <= |s.box| && LocAt(s.box, at + 1) == Next(s.owner.curr);
    }
  }

  lemma ClearPrevCell(s: State, k: nat)
    requires Enabled(s, Pop) && s.owner.Clearing? && OwnerOk(s) && Distinct(s.box) && k < |s.box| && CellOk(s, k)
    ensures CellOk(PopStep(s), k)
  {
    var at := s.owner.at;
    if k < at {
      LocsDiffer(s.box, k, at);
    } else if at < k {
      LocsDiffer(s.box, at, k);
    }
  }

  lemma ClearPrevRest(s: State)
    requires Enabled(s, Pop) && s.owner.Clearing? && OwnerOk(s) && Distinct(s.box) && Tail(s)
    ensures Tail(PopStep(s)) && OwnerOk(PopStep(s))
  {
    LocsDiffer(s.box, s.owner.at, |s.box|);
  }

  lemma ClearPrevLinks(s: State)
    requires Links(s) && Enabled(s, Pop) && s.owner.Clearing?
    ensures Links(PopStep(s))
  {
    var s' := PopStep(s);
    forall x | 0 <= x < |s'.proxies|
      ensures ProxyOk(s', x)
    {
      assert ProxyOk(s, x);
    }
    forall k | 0 <= k < |s'.box|
      ensures CellOk(s', k)
    {
      assert CellOk(s, k);
      ClearPrevCell(s, k);
    }
    ClearPrevRest(s);
  }

  /** Positions behind the one taken out move up by one. */
  lemma RemovedLocs(box: seq<nat>, at: nat, k: nat)
    requires at < |box| && k < |box|
    ensures LocAt(Cut(box, at), k) == if k <= at then LocAt(box, k) else LocAt(box, k + 1)
  {
  }

  lemma ReturnProxy(s: State, s': State, x: nat)
    requires x < |s.proxies| == |s'.proxies| && ProxyOk(s, x)
    requires Distinct(s.box) && s.owner != Resting && !s.owner.Loading?
    requires Linked(s, s.owner.curr, s.owner.at)
    requires s'.pushed == s.pushed && s'.popped == s.popped + [s.owner.curr] && s'.box == Cut(s.box, s.owner.at)
    requires s'.proxies[x].push == s.proxies[x].push
    requires s.proxies[x].push == Cleared ==> s'.proxies[x].next == s.proxies[x].next
    ensures ProxyOk(s', x)
  {
    var at := s.owner.at;
    assert s.box == s.box[..at] + [s.owner.curr] + s.box[at + 1..];
    assert x in s.box <==> x in s.box[..at] || x == s.owner.curr || x in s.box[at + 1..];
    assert s.owner.curr !in s.box[..at] && s.owner.curr !in s.box[at + 1..];
  }

  lemma UnlinkCell(s: State, k: nat)
    requires Enabled(s, Pop) && s.owner.Unlinking? && OwnerOk(s) && Distinct(s.box) && k + 1 < |s.box|
    requires CellOk(s, k) && CellOk(s, k + 1)
    ensures CellOk(PopStep(s), k)
  {
    var s', at := PopStep(s), s.owner.at;
    RemovedLocs(s.box, at, k);
    if k < at {
      LocsDiffer(s.box, k, at);
      assert s'.box[k] == s.box[k];
      assert Read(s', LocAt(s'.box, k)) == Read(s, LocAt(s.box, k));
    } else if k == at {
      assert s'.box[k] == s.owner.second;
      assert Read(s', LocAt(s'.box, k)) == Some(s.owner.second);
    } else {
      LocsDiffer(s.box, at, k + 1);
      assert s'.box[k] == s.box[k + 1];
      assert Read(s', LocAt(s'.box, k)) == Read(s, LocAt(s.box, k + 1));
    }
  }

  lemma UnlinkProxy(s: State, x: nat)
    requires Enabled(s, Pop) && s.owner.Unlinking? && OwnerOk(s) && Distinct(s.box) && x < |s.proxies| && ProxyOk(s, x)
    requires s.owner.prev.Next? ==> s.owner.prev.p < |s.proxies| && s.proxies[s.owner.prev.p].push != Cleared
    ensures x < |PopStep(s).proxies| && ProxyOk(PopStep(s), x)
  {
    ReturnProxy(s, PopStep(s), x);
  }

  lemma UnlinkTail(s: State)
    requires Enabled(s, Pop) && s.owner.Unlinking? && OwnerOk(s) && Distinct(s.box) && Tail(s)
    ensures Tail(PopStep(s))
  {
    RemovedLocs(s.box, s.owner.at, |s.box| - 1);
    LocsDiffer(s.box, s.owner.at, |s.box|);
  }

  lemma UnlinkLinks(s: State)
    requires Links(s) && Enabled(s, Pop) && s.owner.Unlinking?
    ensures Links(PopStep(s))
  {
    var s', at := PopStep(s), s.owner.at;
    if at > 0 {
      assert s.box[at - 1] in s.box && CellOk(s, at - 1);
    }
    forall x | 0 <= x < |s'.proxies|
      ensures ProxyOk(s', x)
    {
      assert ProxyOk(s, x);
      UnlinkProxy(s, x);
    }
    forall k | 0 <= k < |s'.box|
      ensures CellOk(s', k)
    {
      assert CellOk(s, k) && CellOk(s, k + 1);
      UnlinkCell(s, k);
    }
    UnlinkTail(s);
  }

  /** Nobody has pushed behind the proxy taken, so my_last goes back to its place. */
  lemma SwingTakes(s: State)
    requires Links(s) && Enabled(s, Pop) && s.owner.Swinging? && s.last == Next(s.owner.curr)
    ensures Links(PopStep(s))
  {
    var s', at := PopStep(s), s.owner.at;
    assert CellOk(s, at);
    IsLast(s.box, at + 1);
    assert s'.box == s.box[..at];
    forall x | 0 <= x < |s'.proxies|
      ensures ProxyOk(s', x)
    {
      assert ProxyOk(s, x);
      ReturnProxy(s, s', x);
    }
    forall k | 0 <= k < |s'.box|
      ensures CellOk(s', k)
    {
      assert CellOk(s, k);
    }
  }

  lemma SwingFails(s: State)
    requires Links(s) && Enabled(s, Pop) && s.owner.Swinging? && s.last != Next(s.owner.curr)
    ensures Links(PopStep(s))
  {
    var s' := PopStep(s);
    assert s' == s.(owner := s'.owner);
    forall x | 0 <= x < |s'.proxies|
      ensures ProxyOk(s', x)
    {
      assert ProxyOk(s, x);
    }
    forall k | 0 <= k < |s'.box|
      ensures CellOk(s', k)
    {
      assert CellOk(s, k);
    }
  }

  lemma LinksKept(s: State, a: Step)
    requires Links(s) && Enabled(s, a)
    ensures Links(Apply(s, a))
  {
    match a
    case Clear(p) => ClearLinks(s, p);
    case Exchange(p) => ExchangeLinks(s, p);
    case Link(p) => LinkLinks(s, p);
    case BeginPop(_) =>
      forall x | 0 <= x < |s.proxies|
        ensures ProxyOk(Apply(s, a), x)
      {
        assert ProxyOk(s, x);
      }
      forall k | 0 <= k < |s.box|
        ensures CellOk(Apply(s, a), k)
      {
        assert CellOk(s, k);
      }
    case Pop =>
      if s.owner.Clearing? {
        ClearPrevLinks(s);
      } else if s.owner.Unlinking? {
        UnlinkLinks(s);
      } else if s.owner.Swinging? {
        if s.last == Next(s.owner.curr) {
          SwingTakes(s);
        } else {
          SwingFails(s);
        }
      } else {
        WalkLinks(s);
      }
  }

  // ---------------------------------------------------------------- pushed minus popped

  ghost predicate Inv(s: State) { Links(s) && History(s.pushed, s.popped, s.box) }

  /** The step that makes the current pop return its proxy. */
  predicate Returns(s: State) {
    s.owner.Unlinking? || (s.owner.Swinging? && s.last == Next(s.owner.curr))
  }

  lemma Histories(s: State, a: Step)
    requires Enabled(s, a)
    ensures var s' := Apply(s, a);
      if a.Exchange? then s'.pushed == s.pushed + [a.p] && s'.popped == s.popped && s'.box == s.box + [a.p]
      else if a.Pop? && Returns(s) then s'.pushed == s.pushed && s'.popped == s.popped + [s.owner.curr]
        && s'.box == Cut(s.box, s.owner.at)
      else s'.pushed == s.pushed && s'.popped == s.popped && s'.box == s.box
  {
  }

  ghost predicate History(pushed: seq<nat>, popped: seq<nat>, box: seq<nat>) {
    && Distinct(pushed) && Distinct(popped) && (forall p :: p in popped ==> p in pushed)
    && box == Without(pushed, popped)
  }

  lemma PushHistory(pushed: seq<nat>, popped: seq<nat>, box: seq<nat>, p: nat)
    requires History(pushed, popped, box) && p !in pushed
    ensures History(pushed + [p], popped, box + [p])
  {
    assert (pushed + [p])[..|pushed|] == pushed;
    assert p !in popped;
  }

  lemma PopHistory(pushed: seq<nat>, popped: seq<nat>, box: seq<nat>, k: nat)
    requires History(pushed, popped, box) && k < |box|
    ensures History(pushed, popped + [box[k]], Cut(box, k))
  {
    assert box[k] in box;
    WithoutMembers(pushed, popped);
    WithoutOneMore(pushed, popped, k);
  }

  lemma InvKept(s: State, a: Step)
    requires Inv(s) && Enabled(s, a)
    ensures Inv(Apply(s, a))
  {
    LinksKept(s, a);
    Histories(s, a);
    if a.Exchange? {
      assert ProxyOk(s, a.p);
      PushHistory(s.pushed, s.popped, s.box, a.p);
    } else if a.Pop? && Returns(s) {
      PopHistory(s.pushed, s.popped, s.box, s.owner.at);
    }
  }

  // ---------------------------------------------------------------- runs

  ghost predicate Follows(s: State, s': State) {
    exists a: Step :: Enabled(s, a) && Apply(s, a) == s'
  }

  ghost predicate IsRun(run: seq<State>) {
    && run != []
    && Init(run[0])
    && forall i :: 0 <= i < |run| - 1 ==> NextAt(run, i)
  }

  ghost predicate NextAt(run: seq<State>, i: nat) { i + 1 < |run| && Follows(run[i], run[i + 1]) }

  lemma {:induction false} RunInv(run: seq<State>, n: nat)
    requires IsRun(run) && n < |run|
    ensures Inv(run[n])
    decreases n
  {
    if n > 0 {
      RunInv(run, n - 1);
      assert NextAt(run, n - 1);
      var a :| Enabled(run[n - 1], a) && Apply(run[n - 1], a) == run[n];
      InvKept(run[n - 1], a);
    }
  }

  /**
   The box is what was pushed less what was popped, in the order of the exchanges; no proxy is pushed or popped twice,
   and only pushed ones are popped.
   */
  lemma PushedMinusPopped(run: seq<State>, n: nat)
    requires IsRun(run) && n < |run|
    ensures var s := run[n];
      && s.box == Without(s.pushed, s.popped)
      && Distinct(s.pushed) && Distinct(s.popped) && (forall p :: p in s.popped ==> p in s.pushed)
  {
    RunInv(run, n);
  }

  /**
   Once every pusher has stored its link and no pop is under way, the links spell out the box from my_first to my_last.
   */
  lemma LinksSpellBox(run: seq<State>, n: nat, k: nat)
    requires IsRun(run) && n < |run| && run[n].owner == Resting && k <= |run[n].box|
    requires forall p :: 0 <= p < |run[n].proxies| ==> !run[n].proxies[p].push.Linking?
    ensures var s := run[n];
      && Valid(s, LocAt(s.box, k))
      && Read(s, LocAt(s.box, k)) == (if k < |s.box| then Some(s.box[k]) else None)
      && s.last == LocAt(s.box, |s.box|)
  {
    RunInv(run, n);
    assert k < |run[n].box| ==> CellOk(run[n], k);
  }

  /** The owner spins only for a link that is stored already or that some pusher is about to store. */
  lemma SpinIsAwaited(run: seq<State>, n: nat)
    requires IsRun(run) && n < |run| && run[n].owner.Spinning?
    ensures var s, curr := run[n], run[n].owner.curr;
      curr < |s.proxies|
        && (s.proxies[curr].next.Some? || exists p :: 0 <= p < |s.proxies| && s.proxies[p].push == Linking(Next(curr)))
  {
    RunInv(run, n);
    var s := run[n];
    assert CellOk(s, s.owner.at + 1);
    assert s.proxies[s.box[s.owner.at + 1]].push == Linking(Next(s.owner.curr)) || s.proxies[s.owner.curr].next.Some?;
  }

  /** What a pop returns is the first proxy of the box that its isolation admits. */
  lemma PopsFirstMatch(run: seq<State>, n: nat)
    requires IsRun(run) && n < |run| && Enabled(run[n], Pop) && Returns(run[n])
    ensures var s, s' := run[n], PopStep(run[n]);
      exists k :: 0 <= k < |s.box| && s'.box == Cut(s.box, k) && s'.popped == s.popped + [s.box[k]]
        && FirstMatch(s, k)
  {
    RunInv(run, n);
    assert FirstMatch(run[n], run[n].owner.at);
  }

  predicate FirstMatch(s: State, k: nat) {
    k < |s.box| && s.box[k] < |s.proxies| && Matches(s, s.box[k]) && Skipped(s, k)
  }

  /**
   A pop gives up only when every proxy linked before the end, or before a link still to be stored, is not admitted.
   */
  lemma GivesUpAtGap(run: seq<State>, n: nat)
    requires IsRun(run) && n < |run| && Enabled(run[n], Pop)
    requires run[n].owner.Loading? && Read(run[n], run[n].owner.prev) == None
    ensures var s := run[n];
      exists k: nat :: Skipped(s, k) && (k == |s.box| || (s.box[k] < |s.proxies| && s.proxies[s.box[k]].push.Linking?))
  {
    RunInv(run, n);
    var s := run[n];
    assert Skipped(s, s.owner.at);
    assert s.owner.at < |s.box| ==> CellOk(s, s.owner.at);
  }

  /** No pusher stores into a proxy that has left the box. */
  lemma NoStoreAfterPop(run: seq<State>, n: nat, p: nat)
    requires IsRun(run) && n < |run| && p < |run[n].proxies| && run[n].proxies[p].push.Linking?
    ensures var s, link := run[n], run[n].proxies[p].push.link;
      link == First || (link.p in s.box && link.p !in s.popped)
  {
    RunInv(run, n);
    var s := run[n];
    assert ProxyOk(s, p);
    var j :| 0 <= j < |s.box| && s.box[j] == p;
    assert CellOk(s, j);
    WithoutMembers(s.pushed, s.popped);
    assert j > 0 ==> s.box[j - 1] in s.box;
  }

  /** Neither a pop nor a push under way is ever blocked. */
  lemma NeverStuck(run: seq<State>, n: nat, p: nat)
    requires IsRun(run) && n < |run|
    ensures var s := run[n];
      && (s.owner != Resting ==> Enabled(s, Pop))
      && (p < |s.proxies| && s.proxies[p].push.Linking? ==> Enabled(s, Link(p)))
  {
    var s := run[n];
    RunInv(run, n);
    if s.owner != Resting {
      var at := s.owner.at;
      assert at < |s.box| ==> CellOk(s, at);
      assert at > 0 ==> CellOk(s, at - 1);
    }
    if p < |s.proxies| && s.proxies[p].push.Linking? {
      assert ProxyOk(s, p);
      var j :| 0 <= j < |s.box| && s.box[j] == p;
      assert CellOk(s, j);
    }
  }
}
