/** What a whole push or pop achieves, in every run of the mailbox. */
module MailboxCalls {
  import opened Wrappers
  import opened Sequences
  import opened Mailbox

  predicate Takes(s: State, a: Step, s': State) { Enabled(s, a) && Apply(s, a) == s' }

  /** A run with the steps it takes. */
  ghost predicate IsTrail(run: seq<State>, steps: seq<Step>) {
    && |run| == |steps| + 1 && Init(run[0])
    && forall k :: 0 <= k < |steps| ==> StepAt(run, steps, k)
  }

  predicate StepAt(run: seq<State>, steps: seq<Step>, k: nat) {
    k < |steps| && k + 1 < |run| && Takes(run[k], steps[k], run[k + 1])
  }

  lemma TrailIsRun(run: seq<State>, steps: seq<Step>)
    requires IsTrail(run, steps)
    ensures IsRun(run)
  {
    forall i | 0 <= i < |run| - 1
      ensures NextAt(run, i)
    {
      assert StepAt(run, steps, i);
    }
  }

  // ---------------------------------------------------------------- pop

  /** A pop with isolation iso may return proxy p; None stands for no isolation. */
  predicate Fits(s: State, p: nat, iso: Option<nat>) {
    p < |s.proxies| && (iso == None || s.proxies[p].isolation == iso.value)
  }

  /** Nothing before position k of the box fits. */
  predicate NoneBefore(s: State, k: nat, iso: Option<nat>) {
    k <= |s.box| && forall j :: 0 <= j < k ==> !Fits(s, s.box[j], iso)
  }

  /** The proxy at position k has not been linked yet. */
  predicate Unlinked(s: State, k: nat) {
    k < |s.box| && s.box[k] < |s.proxies| && s.proxies[s.box[k]].push.Linking?
  }

  /** The step takes the first proxy that fits out of the box and returns it. */
  ghost predicate PopsFirst(s: State, s': State, iso: Option<nat>) {
    exists k :: 0 <= k < |s.box| && Fits(s, s.box[k], iso) && NoneBefore(s, k, iso)
      && s'.box == Cut(s.box, k) && s'.popped == s.popped + [s.box[k]]
  }

  /** The step gives up: what fits, if anything, is behind a proxy that is not linked yet. */
  ghost predicate GivesUp(s: State, s': State, iso: Option<nat>) {
    && s'.box == s.box && s'.popped == s.popped
    && exists k: nat :: NoneBefore(s, k, iso) && (k == |s.box| || Unlinked(s, k))
  }

  lemma WantedKept(s: State, a: Step)
    requires Enabled(s, a) && s.owner != Resting
    ensures Apply(s, a).wanted == s.wanted && (!a.Pop? ==> Apply(s, a).owner == s.owner)
  {
  }

  lemma {:induction false} Wanted(run: seq<State>, steps: seq<Step>, m: nat, n: nat, iso: Option<nat>)
    requires IsTrail(run, steps) && m < n < |run| && steps[m] == BeginPop(iso)
    requires forall k :: m < k < n ==> run[k].owner != Resting
    ensures run[n].wanted == iso && (m == n - 1 ==> run[n].owner != Resting)
    decreases n
  {
    var l := n - 1;
    assert StepAt(run, steps, l);
    if m < l {
      Wanted(run, steps, m, l, iso);
      WantedKept(run[l], steps[l]);
    }
  }

  /** The last step of a pop. */
  lemma PopEnds(run: seq<State>, n: nat)
    requires IsRun(run) && n < |run| && Enabled(run[n], Pop) && PopStep(run[n]).owner == Resting
    ensures var s, s' := run[n], PopStep(run[n]); PopsFirst(s, s', s.wanted) || GivesUp(s, s', s.wanted)
  {
    var s, s' := run[n], PopStep(run[n]);
    RunInv(run, n);
    if Returns(s) {
      PopsFirstMatch(run, n);
      var k :| 0 <= k < |s.box| && s'.box == Cut(s.box, k) && s'.popped == s.popped + [s.box[k]] && FirstMatch(s, k);
      assert Fits(s, s.box[k], s.wanted) && NoneBefore(s, k, s.wanted);
    } else {
      GivesUpAtGap(run, n);
      var k: nat :| Skipped(s, k) && (k == |s.box| || (s.box[k] < |s.proxies| && s.proxies[s.box[k]].push.Linking?));
      assert NoneBefore(s, k, s.wanted);
    }
  }

  /**
   A pop returns the first proxy of the box that fits the isolation it was called with; it returns none only if at its
   last look every proxy up to the end, or up to one whose link is still to be stored, did not fit.
   */
  lemma PopCall(run: seq<State>, steps: seq<Step>, m: nat, n: nat, iso: Option<nat>)
    requires IsTrail(run, steps) && m < n < |run| && steps[m] == BeginPop(iso)
    requires (forall k :: m < k < n ==> run[k].owner != Resting) && run[n].owner == Resting
    ensures m < n - 1 && (PopsFirst(run[n - 1], run[n], iso) || GivesUp(run[n - 1], run[n], iso))
  {
    var l := n - 1;
    Wanted(run, steps, m, n, iso);
    Wanted(run, steps, m, l, iso);
    assert StepAt(run, steps, l);
    WantedKept(run[l], steps[l]);
    TrailIsRun(run, steps);
    PopEnds(run, l);
  }

  /** Bounds the steps left of a pop while nobody pushes. */
  function PopLeft(s: State): int {
    if s.owner == Resting then 0
    else
      6 * (|s.box| - s.owner.at) +
      match s.owner
      case Loading(_, _) => 6
      case Second(_, _, _) => 5
      case Clearing(_, _, _) => 4
      case Swinging(_, _, _) => 3
      case Spinning(_, _, _) => 2
      case _ => 1
  }

  /** Every step of a pop brings it closer to its end, except for one that waits for a link some pusher is to store. */
  lemma PopGoesOn(run: seq<State>, n: nat)
    requires IsRun(run) && n < |run| && run[n].owner != Resting
    ensures Enabled(run[n], Pop)
    ensures 0 <= PopLeft(PopStep(run[n])) < PopLeft(run[n])
      || (PopStep(run[n]) == run[n] && run[n].owner.Spinning? && exists p :: Awaited(run[n], p))
  {
    NeverStuck(run, n, 0);
    PopShrinks(run, n);
  }

  /** Pusher p is about to store the link the owner waits for. */
  predicate Awaited(s: State, p: nat) {
    s.owner.Spinning? && p < |s.proxies| && s.proxies[p].push == Linking(Next(s.owner.curr))
  }

  lemma PopShrinks(run: seq<State>, n: nat)
    requires IsRun(run) && n < |run| && Enabled(run[n], Pop)
    ensures 0 <= PopLeft(PopStep(run[n])) < PopLeft(run[n])
      || (PopStep(run[n]) == run[n] && run[n].owner.Spinning? && exists p :: Awaited(run[n], p))
  {
    RunInv(run, n);
    var s := run[n];
    if s.owner.Spinning? && s.proxies[s.owner.curr].next == None {
      SpinIsAwaited(run, n);
      var p :| 0 <= p < |s.proxies| && s.proxies[p].push == Linking(Next(s.owner.curr));
      assert Awaited(s, p);
    } else {
      PopStepShrinks(s);
    }
  }

  lemma PopStepShrinks(s: State)
    requires Enabled(s, Pop) && OwnerOk(s) && !(s.owner.Spinning? && s.proxies[s.owner.curr].next == None)
    requires s.owner.Loading? && Read(s, s.owner.prev).Some? ==> s.owner.at < |s.box|
    ensures 0 <= PopLeft(PopStep(s)) < PopLeft(s)
  {
  }

  // ---------------------------------------------------------------- push

  function PushLeft(p: Push): nat {
    match p
    case Waiting => 3
    case Cleared => 2
    case Linking(_) => 1
    case Done => 0
  }

  function PushStep(push: Push, p: nat): Step {
    match push
    case Waiting => Clear(p)
    case Cleared => Exchange(p)
    case _ => Link(p)
  }

  /** A push can always take its own next step and takes three; then its proxy is in the box, or has been popped. */
  lemma PushGoesOn(run: seq<State>, n: nat, p: nat)
    requires IsRun(run) && n < |run| && p < |run[n].proxies|
    ensures var s := run[n];
      s.proxies[p].push == Done ==> p in s.pushed && (p in s.box <==> p !in s.popped)
    ensures var s, push := run[n], run[n].proxies[p].push;
      push != Done ==>
        && Enabled(s, PushStep(push, p)) && p < |Apply(s, PushStep(push, p)).proxies|
        && PushLeft(Apply(s, PushStep(push, p)).proxies[p].push) == PushLeft(push) - 1
  {
    NeverStuck(run, n, p);
    RunInv(run, n);
    assert ProxyOk(run[n], p);
  }
}
